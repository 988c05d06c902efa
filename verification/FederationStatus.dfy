/** What every table of the federation transport holds, told by the events alone, and what the user
    therefore sees (backend/agent-manager.ts, lines 61-124, 222-237, 262-330, 447-631). */
module FederationStatus {
  import opened Common
  import opened FederationState

  // -------------------------------------------------------------- what an event is

  /** The event comes from the current client of `e`. */
  ghost predicate From(s: State, event: Event, e: Endpoint) {
    && (event.LoginAnswer? || event.ConnectError? || event.ReconnectFailed? || event.VersionInfo?)
    && e in s.clients && event.client == s.clients[e]
  }

  /** A connect that differs from the stored config in its address or its credentials. */
  ghost predicate Supersedes(s: State, event: Event, e: Endpoint) {
    && event.Connect? && event.config.url.host == e && e != "" && e in s.configs
    && !(s.configs[e].url == event.config.url && s.configs[e].username == event.config.username && s.configs[e].password == event.config.password)
  }

  /** Everything kept about `e` is forgotten. */
  ghost predicate Forgets(s: State, event: Event, e: Endpoint) {
    event == Disconnect(e) || Supersedes(s, event, e)
  }

  /** The client of `e` gave up, or failed to connect for the sixth time. */
  ghost predicate Opens(s: State, event: Event, e: Endpoint) {
    From(s, event, e) && (event.ReconnectFailed? || (event.ConnectError? && FailureCount(s, e) >= 5))
  }

  /** The client of `e` was refused, or is of an unsupported version. */
  ghost predicate Rejects(s: State, event: Event, e: Endpoint) {
    From(s, event, e) && (event == LoginAnswer(event.client, false) || event == VersionInfo(event.client, false))
  }

  ghost predicate LogsIn(s: State, event: Event, e: Endpoint) {
    From(s, event, e) && event == LoginAnswer(event.client, true)
  }

  ghost predicate Retries(s: State, event: Event, e: Endpoint) {
    event == TimerFires(e) && e in s.timers
  }

  ghost predicate Connects(s: State, event: Event, e: Endpoint) {
    || (event.Connect? && event.config.url.host == e && e != "" && (e !in s.timers || Supersedes(s, event, e)))
    || Retries(s, event, e)
  }

  ghost predicate Attaches(s: State, event: Event, e: Endpoint) {
    event.AttachReverse? && event.endpoint == e && event.socket !in s.attached
  }

  // ----------------------------------------------------- one event and one endpoint

  /** A client goes away exactly when it is forgotten, rejected or its circuit opens. */
  ghost predicate ClientGoes(s: State, event: Event, e: Endpoint) {
    Forgets(s, event, e) || Rejects(s, event, e) || Opens(s, event, e)
  }

  ghost predicate ClientMoves(s: State, t: State, event: Event, e: Endpoint) {
    && (e in t.clients <==> Connects(s, event, e) || (e in s.clients && !ClientGoes(s, event, e)))
    && (e in t.clients ==> t.clients[e] == if e in s.clients && !ClientGoes(s, event, e) then s.clients[e] else |s.created|)
  }

  ghost predicate TimerMoves(s: State, t: State, event: Event, e: Endpoint) {
    e in t.timers <==> Opens(s, event, e) || (e in s.timers && !Forgets(s, event, e) && !Retries(s, event, e))
  }

  ghost predicate CountMoves(s: State, t: State, event: Event, e: Endpoint) {
    FailureCount(t, e) ==
      if From(s, event, e) && event.ConnectError? then FailureCount(s, e) + 1
      else if LogsIn(s, event, e) || Retries(s, event, e) || Forgets(s, event, e) then 0
      else FailureCount(s, e)
  }

  ghost predicate RefusalMoves(s: State, t: State, event: Event, e: Endpoint) {
    e in t.authFailures <==>
      if From(s, event, e) && event.LoginAnswer? then !event.ok else e in s.authFailures
  }

  ghost predicate ConfigMoves(s: State, t: State, event: Event, e: Endpoint) {
    if event.Connect? && event.config.url.host == e && e != "" then e in t.configs && t.configs[e] == event.config
    else if event == Disconnect(e) then e !in t.configs
    else SameAt(s.configs, t.configs, e)
  }

  ghost predicate ReverseMoves(s: State, t: State, event: Event, e: Endpoint) {
    && (e in t.reverseEndpoints <==>
          Attaches(s, event, e) || event == AddReverse(e) || (e in s.reverseEndpoints && !Forgets(s, event, e)))
    && (if Attaches(s, event, e) then e in t.reverseSockets && t.reverseSockets[e] == event.socket
        else if Forgets(s, event, e) then e !in t.reverseSockets
        else if event.ReverseDown? && e in s.reverseSockets && s.reverseSockets[e] == event.socket then e !in t.reverseSockets
        else SameAt(s.reverseSockets, t.reverseSockets, e))
  }

  ghost predicate Moves(s: State, t: State, event: Event, e: Endpoint) {
    && ClientMoves(s, t, event, e) && TimerMoves(s, t, event, e) && CountMoves(s, t, event, e)
    && RefusalMoves(s, t, event, e) && ConfigMoves(s, t, event, e) && ReverseMoves(s, t, event, e)
  }

  lemma OthersDoNotConcern(s: State, event: Event, e: Endpoint)
    requires EntryOk(s, e, {}) && Concerns(s, event) != Some(e)
    ensures !From(s, event, e) && !Forgets(s, event, e) && !Retries(s, event, e) && !Connects(s, event, e)
    ensures !Attaches(s, event, e) && event != AddReverse(e)
    ensures event.ReverseDown? ==> e !in s.reverseSockets || s.reverseSockets[e] != event.socket
  {
  }

  lemma OthersStay(s: State, event: Event, e: Endpoint)
    requires Inv(s) && Concerns(s, event) != Some(e)
    ensures Moves(s, Step(s, event), event, e)
  {
    EndpointsAreIndependent(s, event, e);
    assert EntryOk(s, e, {});
    OthersDoNotConcern(s, event, e);
    UnconcernedStays(s, Step(s, event), event, e);
  }

  lemma UnconcernedStays(s: State, t: State, event: Event, e: Endpoint)
    requires SameEntry(s, t.(loggedIn := s.loggedIn), e)
    requires !From(s, event, e) && !Forgets(s, event, e) && !Retries(s, event, e) && !Connects(s, event, e)
    requires !Attaches(s, event, e) && event != AddReverse(e) && (event.Connect? ==> event.config.url.host != e)
    requires event.ReverseDown? ==> e !in s.reverseSockets || s.reverseSockets[e] != event.socket
    ensures Moves(s, t, event, e)
  {
  }

  lemma ForgettingMoves(s: State, e: Endpoint)
    requires Inv(s)
    ensures Moves(s, DoDisconnect(s, e), Disconnect(e), e)
  {
    assert EntryOk(s, e, {});
  }

  lemma SupersedingMoves(s: State, config: Config)
    requires EntryOk(s, config.url.host, {}) && Supersedes(s, Connect(config), config.url.host)
    ensures Moves(s, DoConnect(s, config), Connect(config), config.url.host)
  {
  }

  lemma ReconnectMoves(s: State, config: Config)
    requires EntryOk(s, config.url.host, {}) && !Supersedes(s, Connect(config), config.url.host)
    ensures Moves(s, DoConnect(s, config), Connect(config), config.url.host)
  {
  }

  lemma ConnectMoves(s: State, config: Config)
    requires Inv(s)
    ensures Moves(s, DoConnect(s, config), Connect(config), config.url.host)
  {
    assert EntryOk(s, config.url.host, {});
    if Supersedes(s, Connect(config), config.url.host) {
      SupersedingMoves(s, config);
    } else {
      ReconnectMoves(s, config);
    }
  }

  lemma TimerFiring(s: State, e: Endpoint)
    requires Inv(s)
    ensures Moves(s, OnTimer(s, e), TimerFires(e), e)
  {
    assert EntryOk(s, e, {});
  }

  lemma LoginMoves(s: State, c: ClientId, ok: bool)
    requires Inv(s) && c < |s.created|
    ensures Moves(s, OnLogin(s, c, ok), LoginAnswer(c, ok), s.created[c].endpoint)
  {
    assert EntryOk(s, s.created[c].endpoint, {});
  }

  lemma ErrorMoves(s: State, c: ClientId)
    requires Inv(s) && c < |s.created|
    ensures Moves(s, OnConnectError(s, c), ConnectError(c), s.created[c].endpoint)
  {
    assert EntryOk(s, s.created[c].endpoint, {});
  }

  lemma GivingUpMoves(s: State, c: ClientId)
    requires Inv(s) && c < |s.created|
    ensures Moves(s, Step(s, ReconnectFailed(c)), ReconnectFailed(c), s.created[c].endpoint)
  {
    assert EntryOk(s, s.created[c].endpoint, {});
  }

  lemma VersionMoves(s: State, c: ClientId, supported: bool)
    requires Inv(s) && c < |s.created|
    ensures Moves(s, Step(s, VersionInfo(c, supported)), VersionInfo(c, supported), s.created[c].endpoint)
  {
    assert EntryOk(s, s.created[c].endpoint, {});
  }

  lemma ClientFlagMoves(s: State, event: Event, e: Endpoint)
    requires EntryOk(s, e, {}) && (event.ClientUp? || event.ClientDown?)
    ensures Moves(s, Step(s, event), event, e)
  {
    FlagsOnly(s, event);
    UnconcernedStays(s, Step(s, event), event, e);
  }

  lemma FlagsOnly(s: State, event: Event)
    requires event.ClientUp? || event.ClientDown?
    ensures var t := Step(s, event); t == s.(connected := t.connected, loggedIn := t.loggedIn)
  {
    match event
    case ClientUp(c) =>
    case ClientDown(c) =>
  }

  lemma AttachMoves(s: State, e: Endpoint, socket: SocketId)
    requires EntryOk(s, e, {})
    ensures Moves(s, DoAttachReverse(s, e, socket), AttachReverse(e, socket), e)
  {
  }

  lemma AddReverseMoves(s: State, e: Endpoint)
    requires EntryOk(s, e, {})
    ensures Moves(s, Step(s, AddReverse(e)), AddReverse(e), e)
  {
  }

  lemma ReverseDownMoves(s: State, socket: SocketId, e: Endpoint)
    requires EntryOk(s, e, {})
    ensures Moves(s, OnReverseDown(s, socket), ReverseDown(socket), e)
  {
  }

  /** What one event does to each table, endpoint by endpoint. */
  lemma TablesMove(s: State, event: Event, e: Endpoint)
    requires Inv(s)
    ensures Moves(s, Step(s, event), event, e)
  {
    assert EntryOk(s, e, {});
    if Concerns(s, event) != Some(e) {
      OthersStay(s, event, e);
    } else {
      match event
      case Connect(config) => ConnectMoves(s, config);
      case Disconnect(_) => ForgettingMoves(s, e);
      case TimerFires(_) => TimerFiring(s, e);
      case LoginAnswer(c, ok) => LoginMoves(s, c, ok);
      case ConnectError(c) => ErrorMoves(s, c);
      case ReconnectFailed(c) => GivingUpMoves(s, c);
      case VersionInfo(c, supported) => VersionMoves(s, c, supported);
      case AttachReverse(_, socket) => AttachMoves(s, e, socket);
      case AddReverse(_) => AddReverseMoves(s, e);
      case ReverseDown(socket) => ReverseDownMoves(s, socket, e);
      case _ => ClientFlagMoves(s, event, e);
    }
  }

  // ------------------------------------------------------------- since when it is so

  function Now(events: seq<Event>): State {
    Run(INITIAL, events)
  }

  /** The transport of client `c` came up after it was created, and has not gone down since. */
  ghost predicate UpSince(events: seq<Event>, c: ClientId) {
    events != [] &&
    var front, last := events[..|events| - 1], events[|events| - 1];
    (last == ClientUp(c) && c < |Now(front).created|) || (UpSince(front, c) && last != ClientDown(c))
  }

  /** Client `c` of `e` was accepted while it was current, and its transport has not gone down since. */
  ghost predicate AcceptedSince(events: seq<Event>, e: Endpoint, c: ClientId) {
    events != [] &&
    var front, last := events[..|events| - 1], events[|events| - 1];
    || (last == LoginAnswer(c, true) && From(Now(front), last, e))
    || (AcceptedSince(front, e, c) && last != ClientDown(c))
  }

  /** The latest answer to a login of a then current client of `e` was a refusal. */
  ghost predicate RefusedSince(events: seq<Event>, e: Endpoint) {
    events != [] &&
    var front, last := events[..|events| - 1], events[|events| - 1];
    || (last.LoginAnswer? && !last.ok && From(Now(front), last, e))
    || (RefusedSince(front, e) && !LogsIn(Now(front), last, e))
  }

  predicate Accepted(s: State, e: Endpoint) {
    e in s.loggedIn && s.loggedIn[e]
  }

  ghost predicate GoesDown(s: State, event: Event, e: Endpoint) {
    e in s.clients && event == ClientDown(s.clients[e])
  }

  ghost predicate FlagMoves(s: State, t: State, event: Event, e: Endpoint) {
    Accepted(t, e) <==> LogsIn(s, event, e) || (Accepted(s, e) && !ClientGoes(s, event, e) && !GoesDown(s, event, e))
  }

  lemma FlagOfOthers(s: State, event: Event, e: Endpoint)
    requires Inv(s) && Concerns(s, event) != Some(e)
    ensures FlagMoves(s, Step(s, event), event, e)
  {
    assert EntryOk(s, e, {});
    EndpointsAreIndependent(s, event, e);
    OthersDoNotConcern(s, event, e);
  }

  lemma FlagAtConnect(s: State, config: Config)
    requires EntryOk(s, config.url.host, {})
    ensures FlagMoves(s, DoConnect(s, config), Connect(config), config.url.host)
  {
  }

  lemma FlagAtTimer(s: State, e: Endpoint)
    requires EntryOk(s, e, {})
    ensures FlagMoves(s, OnTimer(s, e), TimerFires(e), e)
    ensures FlagMoves(s, DoDisconnect(s, e), Disconnect(e), e)
  {
  }

  lemma FlagAtAnswer(s: State, c: ClientId, ok: bool)
    requires c < |s.created| && EntryOk(s, s.created[c].endpoint, {})
    ensures FlagMoves(s, OnLogin(s, c, ok), LoginAnswer(c, ok), s.created[c].endpoint)
  {
  }

  lemma FlagAtError(s: State, c: ClientId)
    requires c < |s.created| && EntryOk(s, s.created[c].endpoint, {})
    ensures FlagMoves(s, OnConnectError(s, c), ConnectError(c), s.created[c].endpoint)
  {
  }

  lemma FlagAtEnd(s: State, event: Event)
    requires event.ReconnectFailed? || event.VersionInfo? || event.ClientDown? || event.ClientUp?
    requires event.client < |s.created| && EntryOk(s, s.created[event.client].endpoint, {})
    ensures FlagMoves(s, Step(s, event), event, s.created[event.client].endpoint)
  {
    match event
    case ReconnectFailed(c) =>
    case VersionInfo(c, _) =>
    case ClientDown(c) =>
    case ClientUp(c) =>
  }

  lemma FlagAtReverse(s: State, event: Event, e: Endpoint)
    requires event.AttachReverse? || event.ReverseDown? || event.AddReverse?
    ensures FlagMoves(s, Step(s, event), event, e)
  {
    match event
    case AttachReverse(_, _) =>
    case ReverseDown(_) =>
    case AddReverse(_) =>
  }

  lemma StepMovesFlag(s: State, event: Event, e: Endpoint)
    requires Inv(s)
    ensures FlagMoves(s, Step(s, event), event, e)
  {
    assert EntryOk(s, e, {});
    if Concerns(s, event) != Some(e) {
      FlagOfOthers(s, event, e);
    } else {
      match event
      case Connect(config) => FlagAtConnect(s, config);
      case Disconnect(_) => FlagAtTimer(s, e);
      case TimerFires(_) => FlagAtTimer(s, e);
      case LoginAnswer(c, ok) => FlagAtAnswer(s, c, ok);
      case ConnectError(c) => FlagAtError(s, c);
      case AttachReverse(_, _) => FlagAtReverse(s, event, e);
      case ReverseDown(_) => FlagAtReverse(s, event, e);
      case AddReverse(_) => FlagAtReverse(s, event, e);
      case _ => FlagAtEnd(s, event);
    }
  }

  /** A transport that is lost without going down belonged to a client that was dropped. */
  ghost predicate LosesDropped(s: State, t: State) {
    t.connected <= s.connected && forall c | c in s.connected && c !in t.connected :: !Current(t, c)
  }

  lemma DisconnectLosesDropped(s: State, e: Endpoint)
    requires EntryOk(s, e, {})
    ensures LosesDropped(s, DoDisconnect(s, e)) && LosesDropped(s, OpenCircuit(s, e)) && LosesDropped(s, DropClient(s, e))
  {
  }

  lemma EnsureClientLosesDropped(s: State, t: State, config: Config)
    requires LosesDropped(s, t) && t.created == s.created && forall c | c in s.connected :: c < |s.created|
    ensures LosesDropped(s, EnsureClient(StoreConfig(t, config), config))
  {
  }

  lemma ConnectLosesDropped(s: State, config: Config)
    requires EntryOk(s, config.url.host, {}) && forall c | c in s.connected :: c < |s.created|
    ensures LosesDropped(s, DoConnect(s, config))
  {
    DisconnectLosesDropped(s, config.url.host);
    EnsureClientLosesDropped(s, Supersede(s, config), config);
  }

  lemma TimerLosesDropped(s: State, e: Endpoint)
    requires Inv(s) && forall c | c in s.connected :: c < |s.created|
    ensures LosesDropped(s, OnTimer(s, e))
  {
    assert EntryOk(s, e, {});
    if e in s.timers && e in s.configs {
      ConnectLosesDropped(s.(timers := s.timers - {e}, failures := s.failures[e := 0]), s.configs[e]);
    }
  }

  lemma AnswerLosesDropped(s: State, c: ClientId, ok: bool)
    requires Inv(s) && c < |s.created|
    ensures LosesDropped(s, OnLogin(s, c, ok)) && LosesDropped(s, OnConnectError(s, c))
  {
    assert EntryOk(s, s.created[c].endpoint, {});
  }

  lemma StepLosesDropped(s: State, event: Event)
    requires Inv(s) && !event.ClientUp? && !event.ClientDown?
    requires forall c | c in s.connected :: c < |s.created|
    ensures LosesDropped(s, Step(s, event))
  {
    match event
    case Connect(config) =>
      assert EntryOk(s, config.url.host, {});
      ConnectLosesDropped(s, config);
    case Disconnect(e) =>
      assert EntryOk(s, e, {});
      DisconnectLosesDropped(s, e);
    case TimerFires(e) => TimerLosesDropped(s, e);
    case LoginAnswer(c, ok) => if c < |s.created| { AnswerLosesDropped(s, c, ok); }
    case ConnectError(c) => if c < |s.created| { AnswerLosesDropped(s, c, true); }
    case ReconnectFailed(c) =>
      if Current(s, c) {
        assert EntryOk(s, s.created[c].endpoint, {});
        DisconnectLosesDropped(s, s.created[c].endpoint);
      }
    case VersionInfo(c, _) =>
      if Current(s, c) {
        assert EntryOk(s, s.created[c].endpoint, {});
        DisconnectLosesDropped(s, s.created[c].endpoint);
      }
    case AttachReverse(_, _) =>
    case ReverseDown(_) =>
    case AddReverse(_) =>
  }

  /** Only clients that were created are connected. */
  lemma StepConnectsCreated(s: State, event: Event)
    requires Inv(s) && forall c | c in s.connected :: c < |s.created|
    ensures forall c | c in Step(s, event).connected :: c < |Step(s, event).created|
  {
    StepNoRevival(s, event);
    if event.ClientUp? || event.ClientDown? {
      FlagsOnly(s, event);
    } else {
      StepLosesDropped(s, event);
    }
  }

  lemma {:induction false} OnlyCreatedAreConnected(events: seq<Event>)
    ensures forall c | c in Now(events).connected :: c < |Now(events).created|
  {
    if events == [] {
    } else {
      var front := events[..|events| - 1];
      OnlyCreatedAreConnected(front);
      RunKeepsInv(INITIAL, front);
      StepConnectsCreated(Now(front), events[|events| - 1]);
    }
  }

  lemma {:induction false} OnlyCreatedAreUp(events: seq<Event>, c: ClientId)
    ensures UpSince(events, c) ==> c < |Now(events).created|
  {
    if events == [] {
    } else {
      var front := events[..|events| - 1];
      OnlyCreatedAreUp(front, c);
      StepNoRevival(Now(front), events[|events| - 1]);
    }
  }

  lemma {:induction false} OnlyCreatedAreAccepted(events: seq<Event>, e: Endpoint, c: ClientId)
    ensures AcceptedSince(events, e, c) ==> c < |Now(events).created|
  {
    if events == [] {
    } else {
      var front := events[..|events| - 1];
      OnlyCreatedAreAccepted(front, e, c);
      StepNoRevival(Now(front), events[|events| - 1]);
      RunKeepsInv(INITIAL, front);
      assert EntryOk(Now(front), e, {});
    }
  }

  // ---------------------------------------------------------------- main results

  /** Only its own transport events move the flag of a client that is still current afterwards. */
  lemma CurrentConnectionMoves(s: State, event: Event, c: ClientId)
    requires Inv(s) && Current(Step(s, event), c) && forall d | d in s.connected :: d < |s.created|
    ensures c in Step(s, event).connected <==>
              (event == ClientUp(c) && c < |s.created|) || (c in s.connected && event != ClientDown(c))
  {
    if !event.ClientUp? && !event.ClientDown? {
      StepLosesDropped(s, event);
    }
  }

  /** The current client of `e` is connected exactly when its transport came up and has not gone down since. */
  lemma {:induction false} UpExactly(events: seq<Event>, e: Endpoint)
    requires e in Now(events).clients
    ensures Now(events).clients[e] in Now(events).connected <==> UpSince(events, Now(events).clients[e])
  {
    if events == [] {
    } else {
      var front, last := events[..|events| - 1], events[|events| - 1];
      var s, t := Now(front), Now(events);
      RunKeepsInv(INITIAL, front);
      RunKeepsInv(INITIAL, events);
      assert EntryOk(t, e, {});
      OnlyCreatedAreConnected(front);
      TablesMove(s, last, e);
      if e in s.clients && t.clients[e] == s.clients[e] {
        UpExactly(front, e);
      } else {
        OnlyCreatedAreUp(front, t.clients[e]);
      }
      CurrentConnectionMoves(s, last, t.clients[e]);
    }
  }

  /** It counts as logged in exactly when it was accepted and its transport has not gone down since. */
  lemma {:induction false} AcceptedExactly(events: seq<Event>, e: Endpoint)
    ensures Accepted(Now(events), e) <==> e in Now(events).clients && AcceptedSince(events, e, Now(events).clients[e])
  {
    if events == [] {
    } else {
      var front, last := events[..|events| - 1], events[|events| - 1];
      var s, t := Now(front), Now(events);
      RunKeepsInv(INITIAL, front);
      assert EntryOk(s, e, {});
      TablesMove(s, last, e);
      StepMovesFlag(s, last, e);
      AcceptedExactly(front, e);
      if e in t.clients && !(e in s.clients && t.clients[e] == s.clients[e]) {
        OnlyCreatedAreAccepted(front, e, t.clients[e]);
      }
    }
  }

  /** The latest answer decides whether the endpoint counts as refused. */
  lemma {:induction false} RefusedExactly(events: seq<Event>, e: Endpoint)
    ensures e in Now(events).authFailures <==> RefusedSince(events, e)
  {
    if events == [] {
    } else {
      var front := events[..|events| - 1];
      RunKeepsInv(INITIAL, front);
      TablesMove(Now(front), events[|events| - 1], e);
      RefusedExactly(front, e);
    }
  }

  /** What is shown for a directly connected endpoint. */
  lemma DirectStatusExactly(events: seq<Event>, e: Endpoint)
    requires e !in Now(events).reverseEndpoints
    ensures var s := Now(events);
            && (StatusFor(s, e) == Online <==>
                  e in s.clients && UpSince(events, s.clients[e]) && AcceptedSince(events, e, s.clients[e]))
            && (StatusFor(s, e) == Offline <==> e !in s.clients)
            && (ConnectionFailure(s, e) == Some(Authentication) <==> RefusedSince(events, e))
            && (ConnectionFailure(s, e).None? <==> StatusFor(s, e) == Online)
  {
    RunKeepsInv(INITIAL, events);
    assert EntryOk(Now(events), e, {});
    if e in Now(events).clients {
      UpExactly(events, e);
    }
    AcceptedExactly(events, e);
    RefusedExactly(events, e);
  }

  /** The config given last, unless the endpoint was disconnected since. */
  ghost function Latest(events: seq<Event>, e: Endpoint): Option<Config> {
    if events == [] then None
    else
      var front, last := events[..|events| - 1], events[|events| - 1];
      if last.Connect? && last.config.url.host == e then Some(last.config)
      else if last == Disconnect(e) then None
      else Latest(front, e)
  }

  lemma {:induction false} LatestIsStored(events: seq<Event>, e: Endpoint)
    requires e != ""
    ensures var s := Now(events); if e in s.configs then Latest(events, e) == Some(s.configs[e]) else Latest(events, e) == None
  {
    if events == [] {
    } else {
      var front := events[..|events| - 1];
      RunKeepsInv(INITIAL, front);
      TablesMove(Now(front), events[|events| - 1], e);
      LatestIsStored(front, e);
    }
  }

  /** The reverse socket attached last, unless it went down or the endpoint was forgotten since. */
  ghost function Registered(events: seq<Event>, e: Endpoint): Option<SocketId> {
    if events == [] then None
    else
      var front, last := events[..|events| - 1], events[|events| - 1];
      if Attaches(Now(front), last, e) then Some(last.socket)
      else if Forgets(Now(front), last, e) then None
      else if last.ReverseDown? && Registered(front, e) == Some(last.socket) then None
      else Registered(front, e)
  }

  lemma {:induction false} RegisteredExactly(events: seq<Event>, e: Endpoint)
    ensures var s := Now(events); if e in s.reverseSockets then Registered(events, e) == Some(s.reverseSockets[e]) else Registered(events, e) == None
  {
    if events == [] {
    } else {
      var front := events[..|events| - 1];
      RunKeepsInv(INITIAL, front);
      TablesMove(Now(front), events[|events| - 1], e);
      RegisteredExactly(front, e);
    }
  }

  /** What is shown for an endpoint that connects to this instance. */
  lemma ReverseStatusExactly(events: seq<Event>, e: Endpoint)
    requires e in Now(events).reverseEndpoints
    ensures StatusFor(Now(events), e) == if Registered(events, e).Some? then Online else Offline
    ensures ConnectionFailure(Now(events), e) == if Registered(events, e).Some? then None else Some(Unreachable)
  {
    RunKeepsInv(INITIAL, events);
    assert EntryOk(Now(events), e, {});
    RegisteredExactly(events, e);
  }

  // ---------------------------------------------------------------------- notices

  ghost predicate Alerts(s: State, event: Event, e: Endpoint) {
    Opens(s, event, e) && e in s.configs && !s.configs[e].suppressOfflineAlerts && e !in s.incidents
  }

  ghost predicate Announces(s: State, t: State, event: Event, e: Endpoint) {
    if Alerts(s, event, e) then t.notices == s.notices + [Alert(e)]
    else if LogsIn(s, event, e) then t.notices == s.notices + [LoggedIn(e)]
    else if Forgets(s, event, e) then t.notices == s.notices + [Forgotten(e)]
    else t.notices == s.notices
  }

  lemma ConnectAnnounces(s: State, event: Event, e: Endpoint)
    requires EntryOk(s, e, {}) && (event == Disconnect(e) || event == TimerFires(e) || (event.Connect? && event.config.url.host == e))
    ensures Announces(s, Step(s, event), event, e)
  {
    match event
    case Connect(_) =>
    case Disconnect(_) =>
    case TimerFires(_) =>
  }

  lemma AnswerAnnounces(s: State, c: ClientId, ok: bool, e: Endpoint)
    requires c < |s.created| && s.created[c].endpoint == e && EntryOk(s, e, {})
    ensures Announces(s, OnLogin(s, c, ok), LoginAnswer(c, ok), e)
    ensures Announces(s, OnConnectError(s, c), ConnectError(c), e)
  {
  }

  lemma GivingUpAnnounces(s: State, event: Event, e: Endpoint)
    requires (event.ReconnectFailed? || event.VersionInfo?) && event.client < |s.created| && s.created[event.client].endpoint == e
    requires EntryOk(s, e, {})
    ensures Announces(s, Step(s, event), event, e)
  {
    match event
    case ReconnectFailed(_) =>
    case VersionInfo(_, _) =>
  }

  /** The only notices: an alert when a circuit opens for an endpoint that is neither suppressed nor
      reported already, a login, and a disconnect. */
  lemma NoticesExactly(s: State, event: Event, e: Endpoint)
    requires Inv(s)
    ensures if Concerns(s, event) == Some(e) then Announces(s, Step(s, event), event, e)
            else Concerns(s, event) == None ==> Step(s, event).notices == s.notices
  {
    assert EntryOk(s, e, {});
    if Concerns(s, event) == Some(e) {
      match event
      case Connect(_) => ConnectAnnounces(s, event, e);
      case Disconnect(_) => ConnectAnnounces(s, event, e);
      case TimerFires(_) => ConnectAnnounces(s, event, e);
      case LoginAnswer(c, ok) => AnswerAnnounces(s, c, ok, e);
      case ConnectError(c) => AnswerAnnounces(s, c, true, e);
      case ReconnectFailed(_) => GivingUpAnnounces(s, event, e);
      case VersionInfo(_, _) => GivingUpAnnounces(s, event, e);
      case _ => SocketsNotify(s, event);
    }
  }
}
