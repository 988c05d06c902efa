/** Late callbacks of replaced clients and sockets, at any later point of any run
    (backend/agent-manager.ts, lines 73-110, 502-613). */
module FederationLateEvents {
  import opened FederationState

  // ------------------------------------------------------------- reverse sockets

  /** `reverseSockets.get(endpoint) === socket`, for the endpoint the socket was attached under. */
  predicate RegisteredAt(s: State, socket: SocketId) {
    && socket in s.attached && s.attached[socket] in s.reverseSockets
    && s.reverseSockets[s.attached[socket]] == socket
  }

  /** `t` is reached from `s` without registering an old socket. */
  ghost predicate NoReregistration(s: State, t: State) {
    && (forall k | k in s.attached :: k in t.attached && t.attached[k] == s.attached[k])
    && forall e | e in t.reverseSockets && t.reverseSockets[e] in s.attached ::
         e in s.reverseSockets && s.reverseSockets[e] == t.reverseSockets[e]
  }

  lemma DisconnectNeverReregisters(s: State, e: Endpoint)
    ensures NoReregistration(s, DoDisconnect(s, e))
  {
  }

  lemma EnsureClientKeepsSockets(s: State, config: Config)
    ensures var t := EnsureClient(StoreConfig(s, config), config); t.reverseSockets == s.reverseSockets && t.attached == s.attached
  {
  }

  lemma ConnectNeverReregisters(s: State, config: Config)
    ensures NoReregistration(s, DoConnect(s, config))
  {
    DisconnectNeverReregisters(s, config.url.host);
    EnsureClientKeepsSockets(Supersede(s, config), config);
  }

  lemma AttachNeverReregisters(s: State, e: Endpoint, socket: SocketId)
    ensures NoReregistration(s, DoAttachReverse(s, e, socket))
  {
  }

  lemma ReverseDownNeverReregisters(s: State, socket: SocketId)
    ensures NoReregistration(s, OnReverseDown(s, socket))
  {
  }

  lemma FlagsKeepSockets(s: State, event: Event)
    requires event.ClientUp? || event.ClientDown?
    ensures var t := Step(s, event); t.reverseSockets == s.reverseSockets && t.attached == s.attached
  {
    match event
    case ClientUp(c) =>
    case ClientDown(c) =>
  }

  lemma CallbacksKeepSockets(s: State, event: Event)
    requires event.LoginAnswer? || event.ConnectError? || event.ReconnectFailed? || event.VersionInfo?
    ensures Step(s, event).reverseSockets == s.reverseSockets && Step(s, event).attached == s.attached
  {
    match event
    case LoginAnswer(c, ok) =>
    case ConnectError(c) =>
    case ReconnectFailed(c) =>
    case VersionInfo(c, supported) =>
  }

  lemma TimerNeverReregisters(s: State, e: Endpoint)
    ensures NoReregistration(s, OnTimer(s, e))
  {
    if e in s.timers && e in s.configs {
      ConnectNeverReregisters(s.(timers := s.timers - {e}, failures := s.failures[e := 0]), s.configs[e]);
    }
  }

  lemma StepNeverReregisters(s: State, event: Event)
    ensures NoReregistration(s, Step(s, event))
  {
    match event
    case Connect(config) => ConnectNeverReregisters(s, config);
    case Disconnect(e) => DisconnectNeverReregisters(s, e);
    case TimerFires(e) => TimerNeverReregisters(s, e);
    case LoginAnswer(_, _) => CallbacksKeepSockets(s, event);
    case ConnectError(_) => CallbacksKeepSockets(s, event);
    case ReconnectFailed(_) => CallbacksKeepSockets(s, event);
    case VersionInfo(_, _) => CallbacksKeepSockets(s, event);
    case AttachReverse(e, socket) => AttachNeverReregisters(s, e, socket);
    case ReverseDown(socket) => ReverseDownNeverReregisters(s, socket);
    case AddReverse(e) =>
    case ClientUp(_) => FlagsKeepSockets(s, event);
    case ClientDown(_) => FlagsKeepSockets(s, event);
  }

  /** A replaced socket never comes back, so its disconnect, however late, changes no registration. */
  lemma {:induction false} ReplacedForever(s: State, events: seq<Event>, socket: SocketId)
    requires socket in s.attached && !RegisteredAt(s, socket)
    ensures var t := Run(s, events);
            && socket in t.attached && t.attached[socket] == s.attached[socket] && !RegisteredAt(t, socket)
            && Step(t, ReverseDown(socket)).reverseSockets == t.reverseSockets
            && Step(t, ReverseDown(socket)).reverseEndpoints == t.reverseEndpoints
  {
    if events == [] {
    } else {
      ReplacedForever(s, events[..|events| - 1], socket);
      StepNeverReregisters(Run(s, events[..|events| - 1]), events[|events| - 1]);
    }
  }

  /** Losing a socket that is not registered changes what no endpoint shows. */
  lemma UnregisteredDownIsHarmless(s: State, socket: SocketId)
    requires Inv(s) && socket in s.attached && !RegisteredAt(s, socket)
    ensures var t := Step(s, ReverseDown(socket));
            && t.reverseSockets == s.reverseSockets
            && forall f :: && StatusFor(t, f) == StatusFor(s, f) && ConnectionFailure(t, f) == ConnectionFailure(s, f)
                           && (f in s.reverseSockets ==> ReverseUp(t, f) && StatusFor(t, f) == Online)
  {
    var t := Step(s, ReverseDown(socket));
    assert t == s.(reverseConnected := s.reverseConnected - {socket});
    forall f ensures ReverseUp(t, f) == ReverseUp(s, f) && (f in s.reverseSockets ==> ReverseUp(s, f) && f in s.reverseEndpoints) {
      assert EntryOk(s, f, {});
    }
  }

  /** At any later point of any run, whatever socket serves the endpoint then stays online. */
  lemma LateReverseDisconnectIsHarmless(before: seq<Event>, e: Endpoint, older: SocketId, newer: SocketId, after: seq<Event>)
    requires var s := Run(INITIAL, before); older in s.attached && s.attached[older] == e && newer !in s.attached
    ensures var s := Run(Step(Run(INITIAL, before), AttachReverse(e, newer)), after);
            var t := Step(s, ReverseDown(older));
            && t.reverseSockets == s.reverseSockets
            && forall f :: && StatusFor(t, f) == StatusFor(s, f) && ConnectionFailure(t, f) == ConnectionFailure(s, f)
                           && (f in s.reverseSockets ==> ReverseUp(t, f) && StatusFor(t, f) == Online)
  {
    var attached := Step(Run(INITIAL, before), AttachReverse(e, newer));
    RunKeepsInv(INITIAL, before);
    StepKeepsInv(Run(INITIAL, before), AttachReverse(e, newer));
    RunKeepsInv(attached, after);
    ReplacedForever(attached, after, older);
    UnregisteredDownIsHarmless(Run(attached, after), older);
  }

  // --------------------------------------------------------------------- clients

  predicate CallbackOf(event: Event, c: ClientId) {
    (event.ClientUp? || event.LoginAnswer? || event.ConnectError? || event.ReconnectFailed? || event.ClientDown? || event.VersionInfo?)
    && event.client == c
  }

  function Erase(events: seq<Event>, c: ClientId): seq<Event> {
    if events == [] then []
    else
      var front, last := Erase(events[..|events| - 1], c), events[|events| - 1];
      if CallbackOf(last, c) then front else front + [last]
  }

  /** The states differ at most in whether the transport of client `c` is up. */
  ghost predicate SameBut(s: State, t: State, c: ClientId) {
    t == s.(connected := t.connected) && forall k | k != c :: k in t.connected <==> k in s.connected
  }

  lemma DropsKeepSame(s: State, t: State, c: ClientId, e: Endpoint)
    requires SameBut(s, t, c)
    ensures SameBut(DropClient(s, e), DropClient(t, e), c)
    ensures SameBut(OpenCircuit(s, e), OpenCircuit(t, e), c)
  {
  }

  lemma DisconnectKeepsSame(s: State, t: State, c: ClientId, e: Endpoint)
    requires SameBut(s, t, c)
    ensures SameBut(DoDisconnect(s, e), DoDisconnect(t, e), c)
  {
    DropsKeepSame(DropReverse(s, e), DropReverse(t, e), c, e);
  }

  lemma EnsureClientKeepsSame(s: State, t: State, c: ClientId, config: Config)
    requires SameBut(s, t, c)
    ensures SameBut(EnsureClient(StoreConfig(s, config), config), EnsureClient(StoreConfig(t, config), config), c)
  {
  }

  lemma ConnectKeepsSame(s: State, t: State, c: ClientId, config: Config)
    requires SameBut(s, t, c)
    ensures SameBut(DoConnect(s, config), DoConnect(t, config), c)
  {
    DisconnectKeepsSame(s, t, c, config.url.host);
    EnsureClientKeepsSame(Supersede(s, config), Supersede(t, config), c, config);
  }

  lemma TimerKeepsSame(s: State, t: State, c: ClientId, e: Endpoint)
    requires SameBut(s, t, c)
    ensures SameBut(OnTimer(s, e), OnTimer(t, e), c)
  {
    if e in s.timers && e in s.configs {
      ConnectKeepsSame(s.(timers := s.timers - {e}, failures := s.failures[e := 0]),
                       t.(timers := t.timers - {e}, failures := t.failures[e := 0]), c, s.configs[e]);
    }
  }

  lemma ConnectErrorKeepsSame(s: State, t: State, c: ClientId, k: ClientId)
    requires SameBut(s, t, c) && k < |s.created|
    ensures SameBut(OnConnectError(s, k), OnConnectError(t, k), c)
  {
    var e := s.created[k].endpoint;
    var n := FailureCount(s, e) + 1;
    DropsKeepSame(s.(failures := s.failures[e := n]), t.(failures := t.failures[e := n]), c, e);
  }

  lemma LoginKeepsSame(s: State, t: State, c: ClientId, k: ClientId, ok: bool)
    requires SameBut(s, t, c) && k < |s.created|
    ensures SameBut(OnLogin(s, k, ok), OnLogin(t, k, ok), c)
  {
    var e := s.created[k].endpoint;
    DropsKeepSame(s.(authFailures := s.authFailures + {e}), t.(authFailures := t.authFailures + {e}), c, e);
  }

  lemma TransportUpKeepsSame(s: State, t: State, c: ClientId, k: ClientId)
    requires SameBut(s, t, c)
    ensures SameBut(Step(s, ClientUp(k)), Step(t, ClientUp(k)), c)
  {
  }

  lemma TransportDownKeepsSame(s: State, t: State, c: ClientId, k: ClientId)
    requires SameBut(s, t, c)
    ensures SameBut(Step(s, ClientDown(k)), Step(t, ClientDown(k)), c)
  {
    assert Current(s, k) <==> Current(t, k);
    assert SameBut(s.(connected := s.connected - {k}), t.(connected := t.connected - {k}), c);
  }

  lemma SocketsKeepSame(s: State, t: State, c: ClientId, event: Event)
    requires SameBut(s, t, c) && (event.AttachReverse? || event.ReverseDown? || event.AddReverse?)
    ensures SameBut(Step(s, event), Step(t, event), c)
  {
    match event
    case AttachReverse(e, socket) =>
    case ReverseDown(socket) =>
    case AddReverse(e) =>
  }

  lemma CallbackKeepsSame(s: State, t: State, c: ClientId, event: Event)
    requires SameBut(s, t, c)
    requires event.ConnectError? || event.LoginAnswer? || event.ReconnectFailed? || event.VersionInfo?
    ensures SameBut(Step(s, event), Step(t, event), c)
  {
    match event
    case ConnectError(k) => if k < |s.created| { ConnectErrorKeepsSame(s, t, c, k); }
    case LoginAnswer(k, ok) => if k < |s.created| { LoginKeepsSame(s, t, c, k, ok); }
    case ReconnectFailed(k) => if Current(s, k) { DropsKeepSame(s, t, c, s.created[k].endpoint); }
    case VersionInfo(k, _) => if Current(s, k) { DropsKeepSame(s, t, c, s.created[k].endpoint); }
  }

  lemma StepKeepsSame(s: State, t: State, c: ClientId, event: Event)
    requires SameBut(s, t, c)
    ensures SameBut(Step(s, event), Step(t, event), c)
  {
    match event
    case Connect(config) => ConnectKeepsSame(s, t, c, config);
    case Disconnect(e) => DisconnectKeepsSame(s, t, c, e);
    case TimerFires(e) => TimerKeepsSame(s, t, c, e);
    case ConnectError(_) => CallbackKeepsSame(s, t, c, event);
    case LoginAnswer(_, _) => CallbackKeepsSame(s, t, c, event);
    case ReconnectFailed(_) => CallbackKeepsSame(s, t, c, event);
    case VersionInfo(_, _) => CallbackKeepsSame(s, t, c, event);
    case ClientUp(k) => TransportUpKeepsSame(s, t, c, k);
    case ClientDown(k) => TransportDownKeepsSame(s, t, c, k);
    case _ => SocketsKeepSame(s, t, c, event);
  }

  /** Erasing every later callback of a superseded client from a run changes nothing but whether its
      own transport is up: tables, other transports, alerts and the status of every endpoint agree. */
  lemma {:induction false} LateCallbacksCanBeErased(s: State, events: seq<Event>, c: ClientId)
    requires Inv(s) && c < |s.created| && !Current(s, c)
    ensures SameBut(Run(s, events), Run(s, Erase(events, c)), c)
    ensures forall e :: StatusFor(Run(s, events), e) == StatusFor(Run(s, Erase(events, c)), e)
  {
    if events == [] {
    } else {
      var front, last := events[..|events| - 1], events[|events| - 1];
      var t, u := Run(s, front), Run(s, Erase(front, c));
      LateCallbacksCanBeErased(s, front, c);
      SupersededForever(s, front, c);
      if CallbackOf(last, c) {
        SupersededClientIsInert(t, last);
      } else {
        StepKeepsSame(t, u, c, last);
        RunOneMore(s, Erase(front, c), last);
      }
      SameStatus(s, events, c);
    }
  }

  /** No endpoint shows the transport of a client that is not current. */
  lemma SameStatus(s: State, events: seq<Event>, c: ClientId)
    requires Inv(s) && c < |s.created| && !Current(s, c)
    ensures forall u, e | SameBut(Run(s, events), u, c) :: StatusFor(Run(s, events), e) == StatusFor(u, e)
  {
    var t := Run(s, events);
    SupersededForever(s, events, c);
    RunKeepsInv(s, events);
    forall u, e | SameBut(t, u, c) ensures StatusFor(t, e) == StatusFor(u, e) {
      assert EntryOk(t, e, {});
      assert e in t.clients ==> t.clients[e] != c && (t.clients[e] in t.connected <==> t.clients[e] in u.connected);
    }
  }
}
