/** Shutting the federation transport down, and what a connection made afterwards finds
    (backend/agent-manager.ts, lines 187-199, 447-502). */
module FederationShutdown {
  import opened Common
  import opened FederationState

  function Held(m: map<Endpoint, nat>, gone: set<Endpoint>): (r: set<nat>)
    ensures forall x :: x in r <==> exists e :: e in gone && e in m && m[e] == x
  {
    set e | e in gone && e in m :: m[e]
  }

  /** Disconnecting all endpoints of a set, apart from the notices this leaves. */
  function DisconnectAll(s: State, gone: set<Endpoint>): State {
    s.(timers := s.timers - gone,
       clients := s.clients - gone,
       loggedIn := s.loggedIn - gone,
       connected := s.connected - Held(s.clients, gone),
       reverseSockets := s.reverseSockets - gone,
       reverseEndpoints := s.reverseEndpoints - gone,
       reverseConnected := s.reverseConnected - Held(s.reverseSockets, gone),
       failures := s.failures - gone,
       configs := s.configs - gone,
       incidents := s.incidents - gone)
  }

  lemma DisconnectNone(s: State)
    ensures DisconnectAll(s, {}) == s
  {
    var none: set<nat> := {};
    assert Held(s.clients, {}) == none && Held(s.reverseSockets, {}) == none;
  }

  lemma DisconnectOneMore(s: State, gone: set<Endpoint>, e: Endpoint)
    ensures DoDisconnect(DisconnectAll(s, gone), e).(notices := s.notices) == DisconnectAll(s, gone + {e})
  {
    var t, u := DoDisconnect(DisconnectAll(s, gone), e), DisconnectAll(s, gone + {e});
    assert t.connected == u.connected;
    assert t.reverseConnected == u.reverseConnected;
    assert t.timers == u.timers && t.clients == u.clients && t.loggedIn == u.loggedIn && t.reverseSockets == u.reverseSockets;
    assert t.reverseEndpoints == u.reverseEndpoints && t.failures == u.failures && t.configs == u.configs && t.incidents == u.incidents;
  }

  /** `shutdown` clears all retries but disconnects only endpoints with a client or a reverse agent. */
  function Shutdown(s: State): State {
    DisconnectAll(s.(timers := {}), s.clients.Keys + s.reverseEndpoints)
  }

  /** Endpoints whose open circuit holds a full failure count: shutdown clears their timer but,
      having no client to disconnect, keeps the count. */
  function Full(s: State): (r: set<Endpoint>)
    ensures forall e :: e in r <==> e in s.timers && e !in s.reverseEndpoints && FailureCount(s, e) >= FAILURE_THRESHOLD
  {
    set e | e in s.timers && e !in s.reverseEndpoints && FailureCount(s, e) >= FAILURE_THRESHOLD
  }

  lemma ShutdownKeepsInvBut(s: State)
    requires Inv(s)
    ensures InvBut(Shutdown(s), Full(s))
  {
    forall f ensures EntryOk(Shutdown(s), f, Full(s)) {
      assert EntryOk(s, f, {});
    }
  }

  /** Shutting down keeps the invariant exactly when no open circuit has a full failure count. */
  lemma ShutdownKeepsInvExactly(s: State)
    requires Inv(s)
    ensures Inv(Shutdown(s)) <==> forall e | e in s.timers && e !in s.reverseEndpoints :: FailureCount(s, e) < FAILURE_THRESHOLD
  {
    ShutdownKeepsInvBut(s);
    if e :| e in Full(s) {
      assert EntryOk(s, e, {});
      assert !CountOk(Shutdown(s), e);
      assert !EntryOk(Shutdown(s), e, {});
    } else {
      assert Full(s) == {};
    }
  }

  /** Whatever happens after a shutdown, everything true of reachable states stays true, but for the
      failure counts of the endpoints whose circuit was open and full. */
  lemma AfterShutdown(before: seq<Event>, after: seq<Event>, e: Endpoint)
    ensures var s := Run(INITIAL, before); var t := Run(Shutdown(s), after);
            && (e in t.timers ==> e !in t.clients)
            && (e in t.timers || e in t.clients ==> e in t.configs)
            && (e in t.loggedIn ==> e in t.clients)
            && (e in t.clients ==> ClientMatchesConfig(t, e))
            && (e in t.clients && FailureCount(t, e) >= FAILURE_THRESHOLD ==> e in Full(s))
            && (ConnectionFailure(t, e).None? <==> StatusFor(t, e) == Online)
  {
    var s := Run(INITIAL, before);
    RunKeepsInv(INITIAL, before);
    ShutdownKeepsInvBut(s);
    RunKeepsInvBut(Shutdown(s), after, Full(s));
    assert EntryOk(Run(Shutdown(s), after), e, Full(s));
  }

  /** The client this connection finds or makes is below the failure threshold. */
  predicate StartsBelow(t: State, host: Endpoint) {
    host in t.clients ==> FailureCount(t, host) < FAILURE_THRESHOLD
  }

  lemma FullCountReachesTheNextClient(s: State, e: Endpoint)
    requires Inv(s) && e in Full(s)
    ensures e in s.configs && s.configs[e].url.host == e
    ensures var t := DoConnect(Shutdown(s), s.configs[e]);
            e in t.clients && FailureCount(t, e) == FailureCount(s, e) && !StartsBelow(t, e)
  {
    assert EntryOk(s, e, {});
  }

  /** Every connection made after a shutdown starts below the threshold exactly when no circuit was
      open with a full count. */
  lemma NextClientStartsBelowExactly(s: State)
    requires Inv(s)
    ensures (forall config :: StartsBelow(DoConnect(Shutdown(s), config), config.url.host)) <==>
            (forall e | e in s.timers && e !in s.reverseEndpoints :: FailureCount(s, e) < FAILURE_THRESHOLD)
  {
    if e :| e in Full(s) {
      FullCountReachesTheNextClient(s, e);
      assert e in s.timers && e !in s.reverseEndpoints;
    } else {
      forall e | e in s.timers && e !in s.reverseEndpoints ensures FailureCount(s, e) < FAILURE_THRESHOLD {
        assert e !in Full(s);
      }
      forall config ensures StartsBelow(DoConnect(Shutdown(s), config), config.url.host) {
        var t := DoConnect(Shutdown(s), config);
        ShutdownKeepsInvBut(s);
        ConnectKeepsInv(Shutdown(s), config, Full(s));
        assert EntryOk(t, config.url.host, Full(s));
      }
    }
  }

  // -------------------------------------------------------------- a run that fails

  function Failing(config: Config, errors: nat): seq<Event> {
    [Connect(config)] + seq(errors, _ => ConnectError(0))
  }

  lemma {:induction false} ErrorsBelowThreshold(config: Config, errors: nat)
    requires config.url.host != "" && errors < FAILURE_THRESHOLD
    ensures var e := config.url.host; var s := Run(INITIAL, Failing(config, errors));
            && s.created == [Client(e, config.url, config.username, config.password)] && s.clients == map[e := 0]
            && FailureCount(s, e) == errors && s.timers == {} && s.configs == map[e := config] && s.reverseEndpoints == {}
  {
    if errors == 0 {
      assert Failing(config, 0) == [] + [Connect(config)];
      RunOneMore(INITIAL, [], Connect(config));
    } else {
      ErrorsBelowThreshold(config, errors - 1);
      assert Failing(config, errors) == Failing(config, errors - 1) + [ConnectError(0)];
      RunOneMore(INITIAL, Failing(config, errors - 1), ConnectError(0));
    }
  }

  lemma LastErrorOpensTheCircuit(s: State, config: Config)
    requires var e := config.url.host;
             s.created == [Client(e, config.url, config.username, config.password)] && s.clients == map[e := 0]
             && FailureCount(s, e) == FAILURE_THRESHOLD - 1 && s.timers == {} && s.configs == map[e := config] && s.reverseEndpoints == {}
    ensures var e := config.url.host; var t := Step(s, ConnectError(0));
            e in Full(t) && FailureCount(t, e) == FAILURE_THRESHOLD && t.configs == map[e := config]
  {
  }

  lemma ErrorsOpenTheCircuit(config: Config)
    requires config.url.host != ""
    ensures var e := config.url.host; var s := Run(INITIAL, Failing(config, FAILURE_THRESHOLD));
            e in Full(s) && FailureCount(s, e) == FAILURE_THRESHOLD && s.configs == map[e := config]
  {
    var before := Failing(config, FAILURE_THRESHOLD - 1);
    ErrorsBelowThreshold(config, FAILURE_THRESHOLD - 1);
    assert Failing(config, FAILURE_THRESHOLD) == before + [ConnectError(0)];
    RunOneMore(INITIAL, before, ConnectError(0));
    LastErrorOpensTheCircuit(Run(INITIAL, before), config);
  }

  /** Six connection errors, a shutdown, and the next connection starts with six counted failures. */
  lemma ShutdownLeaksAFullCount(config: Config)
    requires config.url.host != ""
    ensures var e := config.url.host;
            var t := DoConnect(Shutdown(Run(INITIAL, Failing(config, FAILURE_THRESHOLD))), config);
            e in t.clients && FailureCount(t, e) == FAILURE_THRESHOLD
  {
    ErrorsOpenTheCircuit(config);
    RunKeepsInv(INITIAL, Failing(config, FAILURE_THRESHOLD));
    FullCountReachesTheNextClient(Run(INITIAL, Failing(config, FAILURE_THRESHOLD)), config.url.host);
  }
}
