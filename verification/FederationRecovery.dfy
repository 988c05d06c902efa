/** The circuit breaker never gives up by itself: a configured endpoint without a client and without a
    pending retry was refused (backend/agent-manager.ts, lines 271-330, 509-539, 598-613). */
module FederationRecovery {
  import opened FederationState

  /** Configured, but nothing connects or is going to. */
  predicate Idle(s: State, e: Endpoint) {
    e in s.configs && e !in s.clients && e !in s.timers
  }

  /** The current client of the endpoint is refused: its login fails or its version is too old. */
  predicate Refuses(s: State, event: Event, e: Endpoint) {
    && ((event.LoginAnswer? && !event.ok) || (event.VersionInfo? && !event.supported))
    && Current(s, event.client) && s.created[event.client].endpoint == e
  }

  lemma DisconnectLeavesNoneIdle(s: State, f: Endpoint, e: Endpoint)
    requires Idle(DoDisconnect(s, f), e)
    ensures Idle(s, e)
  {
  }

  lemma ConnectLeavesNoneIdle(s: State, config: Config, e: Endpoint)
    requires Idle(DoConnect(s, config), e)
    ensures Idle(s, e)
  {
    if Idle(Supersede(s, config), e) && Supersede(s, config) != s {
      DisconnectLeavesNoneIdle(s, config.url.host, e);
    }
  }

  lemma TimerLeavesNoneIdle(s: State, f: Endpoint, e: Endpoint)
    requires Inv(s) && Idle(OnTimer(s, f), e)
    ensures Idle(s, e)
  {
    assert EntryOk(s, e, {}) && EntryOk(s, f, {});
    if f in s.timers && f in s.configs {
      ConnectLeavesNoneIdle(s.(timers := s.timers - {f}, failures := s.failures[f := 0]), s.configs[f], e);
    }
  }

  lemma ErrorLeavesNoneIdle(s: State, c: ClientId, e: Endpoint)
    requires Inv(s) && c < |s.created| && Idle(OnConnectError(s, c), e)
    ensures Idle(s, e)
  {
    assert EntryOk(s, e, {}) && EntryOk(s, s.created[c].endpoint, {});
  }

  lemma CallbackLeavesNoneIdle(s: State, event: Event, e: Endpoint)
    requires Inv(s) && (event.LoginAnswer? || event.ReconnectFailed? || event.VersionInfo?)
    ensures !Idle(s, e) && Idle(Step(s, event), e) <==> Refuses(s, event, e)
  {
    assert EntryOk(s, e, {});
    if Current(s, event.client) {
      assert EntryOk(s, s.created[event.client].endpoint, {});
    }
  }

  lemma SocketsLeaveNoneIdle(s: State, event: Event, e: Endpoint)
    requires event.ClientUp? || event.ClientDown? || event.AttachReverse? || event.ReverseDown? || event.AddReverse?
    ensures Idle(Step(s, event), e) ==> Idle(s, e)
  {
  }

  /** An endpoint becomes idle exactly when its current client is refused. */
  lemma BecomesIdleExactly(s: State, event: Event, e: Endpoint)
    requires Inv(s)
    ensures !Idle(s, e) && Idle(Step(s, event), e) <==> Refuses(s, event, e)
  {
    match event
    case Connect(config) => if Idle(Step(s, event), e) { ConnectLeavesNoneIdle(s, config, e); }
    case Disconnect(f) => if Idle(Step(s, event), e) { DisconnectLeavesNoneIdle(s, f, e); }
    case TimerFires(f) => if Idle(Step(s, event), e) { TimerLeavesNoneIdle(s, f, e); }
    case ConnectError(c) => if c < |s.created| && Idle(Step(s, event), e) { ErrorLeavesNoneIdle(s, c, e); }
    case LoginAnswer(_, _) => CallbackLeavesNoneIdle(s, event, e);
    case ReconnectFailed(_) => CallbackLeavesNoneIdle(s, event, e);
    case VersionInfo(_, _) => CallbackLeavesNoneIdle(s, event, e);
    case _ => SocketsLeaveNoneIdle(s, event, e);
  }

  /** Event `i` refused the endpoint, which has been idle after it and after every later event. */
  ghost predicate IdleSince(events: seq<Event>, i: nat, e: Endpoint)
    requires i < |events|
  {
    var front, last := events[..|events| - 1], events[|events| - 1];
    && Idle(Run(INITIAL, events), e)
    && if i == |front| then Refuses(Run(INITIAL, front), last, e) else IdleSince(front, i, e)
  }

  lemma {:induction false} IdleSinceMeans(events: seq<Event>, i: nat, j: nat, e: Endpoint)
    requires i < j <= |events| && IdleSince(events, i, e)
    ensures Refuses(Run(INITIAL, events[..i]), events[i], e) && Idle(Run(INITIAL, events[..j]), e)
  {
    var front := events[..|events| - 1];
    if i == |front| {
      assert events[..j] == events && events[..i] == front;
    } else if j == |events| {
      assert events[..j] == events && front[..i] == events[..i];
      IdleSinceMeans(front, i, |front|, e);
    } else {
      assert front[..j] == events[..j] && front[..i] == events[..i];
      IdleSinceMeans(front, i, j, e);
    }
  }

  ghost predicate RefusedAt(events: seq<Event>, i: nat, e: Endpoint) {
    i < |events| && IdleSince(events, i, e)
  }

  /** An idle endpoint was refused by some event and has been idle since. */
  lemma {:induction false} IdleHasARefusal(events: seq<Event>, e: Endpoint) returns (i: nat)
    requires Idle(Run(INITIAL, events), e)
    ensures RefusedAt(events, i, e)
  {
    if events == [] {
      assert false;
    } else {
      var front, last := events[..|events| - 1], events[|events| - 1];
      RunKeepsInv(INITIAL, front);
      BecomesIdleExactly(Run(INITIAL, front), last, e);
      if Idle(Run(INITIAL, front), e) {
        i := IdleHasARefusal(front, e);
      } else {
        i := |front|;
      }
    }
  }

  /** In every reachable state an endpoint is idle exactly when some event refused its current client
      and nothing has revived it since. */
  lemma IdleOnlyAfterRefusal(events: seq<Event>, e: Endpoint)
    ensures Idle(Run(INITIAL, events), e) <==> exists i :: RefusedAt(events, i, e)
  {
    if Idle(Run(INITIAL, events), e) {
      var i := IdleHasARefusal(events, e);
    }
    forall i | RefusedAt(events, i, e) ensures Idle(Run(INITIAL, events), e) {
    }
  }
}
