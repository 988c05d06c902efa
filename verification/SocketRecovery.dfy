/** The opt-in Docker socket watchdog (backend/docker-socket-recovery.ts, lines 48-144).
    A call of `check` is split at its two awaits: the probe and the question whether
    an operation is active. Any other event may run in between. */
module SocketRecovery {
  import opened Common

  datatype ProbeResult = Ready | Unavailable | ConfigurationError

  datatype Message = Recovered | Refused | NotArmed | Lost | Deferred | Restarting | CheckFailed

  /** Where the only check in flight is suspended. */
  datatype Phase = Idle | AwaitingProbe | AwaitingBlocked

  datatype State = State(phase: Phase, stopped: bool, armed: bool, failures: nat, restarts: nat, reported: seq<Message>)

  datatype Event =
    | CheckCalled
    | ProbeReturned(result: ProbeResult)
    | ProbeThrew
    | BlockedReturned(blocked: bool, busyNow: bool)
    | BlockedThrew
    | StopCalled

  const INITIAL := State(Idle, false, false, 0, 0, [])

  function Announce(reported: seq<Message>, message: Message): seq<Message> {
    if reported != [] && reported[|reported| - 1] == message then reported else reported + [message]
  }

  function Say(s: State, message: Message): State {
    s.(reported := Announce(s.reported, message))
  }

  function AfterProbe(retries: nat, s: State, result: ProbeResult): State {
    var s := s.(phase := Idle);
    if s.stopped then s
    else match result
      case Ready =>
        (if s.failures > 0 then Say(s, Recovered) else s).(failures := 0, armed := true)
      case ConfigurationError => Say(s.(failures := 0), Refused)
      case Unavailable =>
        if !s.armed then Say(s, NotArmed)
        else
          var s := if s.failures == 0 then Say(s, Lost) else s;
          s.(failures := s.failures + 1, phase := if s.failures + 1 < retries then Idle else AwaitingBlocked)
  }

  function AfterBlocked(s: State, blocked: bool, busyNow: bool): State {
    var s := s.(phase := Idle);
    if blocked || busyNow then Say(s, Deferred)
    else if s.stopped then s
    else Say(s, Restarting).(stopped := true, restarts := s.restarts + 1)
  }

  /** Events that cannot happen in the current phase leave the state alone. */
  function Step(retries: nat, s: State, e: Event): State {
    match e
    case CheckCalled => if retries == 0 || s.phase != Idle || s.stopped then s else s.(phase := AwaitingProbe)
    case ProbeReturned(result) => if s.phase == AwaitingProbe then AfterProbe(retries, s, result) else s
    case ProbeThrew => if s.phase == AwaitingProbe then Say(s, CheckFailed).(phase := Idle) else s
    case BlockedReturned(blocked, busyNow) => if s.phase == AwaitingBlocked then AfterBlocked(s, blocked, busyNow) else s
    case BlockedThrew => if s.phase == AwaitingBlocked then Say(s, CheckFailed).(phase := Idle) else s
    case StopCalled => s.(stopped := true)
  }

  class DockerSocketRecovery {
    const retries: nat
    var phase: Phase       // `checking`, with the await at which the check is suspended
    var stopped: bool
    var armed: bool
    var failures: nat
    var lastMessage: Option<Message>
    var restarts: nat      // calls of the restart callback
    var reported: seq<Message>

    ghost predicate Valid()
      reads this
    {
      lastMessage == if reported == [] then None else Some(reported[|reported| - 1])
    }

    function View(): State
      reads this
    {
      State(phase, stopped, armed, failures, restarts, reported)
    }

    constructor (retries: nat)
      ensures Valid() && this.retries == retries && View() == INITIAL
    {
      this.retries := retries;
      phase, stopped, armed, failures, lastMessage, restarts, reported := Idle, false, false, 0, None, 0, [];
    }

    method Report(message: Message)
      requires Valid()
      modifies this`lastMessage, this`reported
      ensures Valid() && reported == Announce(old(reported), message)
    {
      if lastMessage != Some(message) {
        lastMessage := Some(message);
        reported := reported + [message];
      }
    }

    method Check()
      requires Valid()
      modifies this
      ensures Valid() && View() == Step(retries, old(View()), CheckCalled)
    {
      if retries == 0 || phase != Idle || stopped {
        return;
      }
      phase := AwaitingProbe;
    }

    method ResumeAfterProbe(result: ProbeResult)
      requires Valid() && phase == AwaitingProbe
      modifies this
      ensures Valid() && View() == AfterProbe(retries, old(View()), result)
    {
      phase := Idle;
      if stopped {
        return;
      }
      if result == Ready {
        if failures > 0 {
          Report(Recovered);
        }
        failures := 0;
        armed := true;
        return;
      }
      if result == ConfigurationError {
        failures := 0;
        Report(Refused);
        return;
      }
      if !armed {
        Report(NotArmed);
        return;
      }
      failures := failures + 1;
      if failures == 1 {
        Report(Lost);
      }
      if failures < retries {
        return;
      }
      phase := AwaitingBlocked;
    }

    method ResumeAfterBlocked(blocked: bool, busyNow: bool)
      requires Valid() && phase == AwaitingBlocked
      modifies this
      ensures Valid() && View() == AfterBlocked(old(View()), blocked, busyNow)
    {
      phase := Idle;
      if blocked || busyNow {
        Report(Deferred);
        return;
      }
      if stopped {
        return;
      }
      Report(Restarting);
      Stop();
      restarts := restarts + 1;
    }

    method Fail()
      requires Valid() && phase != Idle
      modifies this
      ensures Valid()
      ensures View() == Step(retries, old(View()), if old(phase) == AwaitingProbe then ProbeThrew else BlockedThrew)
    {
      Report(CheckFailed);
      phase := Idle;
    }

    method Stop()
      requires Valid()
      modifies this`stopped
      ensures Valid() && View() == Step(retries, old(View()), StopCalled)
    {
      stopped := true;
    }

    /** Run the code an event resumes; an answer nobody waits for changes nothing. */
    method Deliver(e: Event)
      requires Valid()
      modifies this
      ensures Valid() && View() == Step(retries, old(View()), e)
    {
      match e {
        case CheckCalled => Check();
        case ProbeReturned(result) => if phase == AwaitingProbe { ResumeAfterProbe(result); }
        case ProbeThrew => if phase == AwaitingProbe { Fail(); }
        case BlockedReturned(blocked, busyNow) => if phase == AwaitingBlocked { ResumeAfterBlocked(blocked, busyNow); }
        case BlockedThrew => if phase == AwaitingBlocked { Fail(); }
        case StopCalled => Stop();
      }
    }

    /** Any history of a new object is a run of the state machine. */
    method DeliverAll(events: seq<Event>)
      requires Valid() && View() == INITIAL
      modifies this
      ensures Valid() && View() == Run(retries, events)
    {
      for i := 0 to |events|
        invariant Valid() && View() == Run(retries, events[..i])
      {
        Deliver(events[i]);
        assert events[..i + 1][..i] == events[..i];
      }
      assert events[..|events|] == events;
    }
  }

  // --------------------------------------------------------------- whole runs

  function Run(retries: nat, events: seq<Event>): State {
    if events == [] then INITIAL
    else Step(retries, Run(retries, events[..|events| - 1]), events[|events| - 1])
  }

  function AddResult(s: State, results: seq<ProbeResult>, e: Event): seq<ProbeResult> {
    if e.ProbeReturned? && s.phase == AwaitingProbe && !s.stopped then results + [e.result] else results
  }

  /** Results of the probes that completed before the watchdog was stopped. */
  function Results(retries: nat, events: seq<Event>): seq<ProbeResult> {
    if events == [] then []
    else
      var front := events[..|events| - 1];
      AddResult(Run(retries, front), Results(retries, front), events[|events| - 1])
  }

  /** Number of "unavailable" results since the latest "ready" or "configuration-error". */
  function UnavailableSince(results: seq<ProbeResult>): nat {
    if results == [] || results[|results| - 1] != Unavailable then 0
    else 1 + UnavailableSince(results[..|results| - 1])
  }

  /** What the state remembers of the probe results and stop calls so far. */
  ghost predicate Remembers(retries: nat, s: State, results: seq<ProbeResult>, stopCalled: bool) {
    && (s.armed <==> Ready in results)
    && s.failures == (if s.armed then UnavailableSince(results) else 0)
    && (s.phase == AwaitingBlocked ==> s.armed && s.failures >= retries)
    && (s.stopped <==> s.restarts > 0 || stopCalled)
    && s.restarts <= 1
    && (retries == 0 ==> s.phase == Idle)
    && NoRepeats(s.reported)
  }

  ghost predicate NoRepeats(reported: seq<Message>) {
    forall i | 0 <= i < |reported| - 1 :: reported[i] != reported[i + 1]
  }

  lemma ProbeRemembers(retries: nat, s: State, results: seq<ProbeResult>, stopCalled: bool, result: ProbeResult)
    requires Remembers(retries, s, results, stopCalled) && s.phase == AwaitingProbe
    ensures Remembers(retries, AfterProbe(retries, s, result), if s.stopped then results else results + [result], stopCalled)
  {
    assert (results + [result])[..|results|] == results;
  }

  lemma BlockedRemembers(retries: nat, s: State, results: seq<ProbeResult>, stopCalled: bool, blocked: bool, busyNow: bool)
    requires Remembers(retries, s, results, stopCalled) && s.phase == AwaitingBlocked
    ensures Remembers(retries, AfterBlocked(s, blocked, busyNow), results, stopCalled)
  {
  }

  lemma StepRemembers(retries: nat, s: State, results: seq<ProbeResult>, stopCalled: bool, e: Event)
    requires Remembers(retries, s, results, stopCalled)
    ensures Remembers(retries, Step(retries, s, e), AddResult(s, results, e), stopCalled || e == StopCalled)
  {
    match e
    case ProbeReturned(result) =>
      if s.phase == AwaitingProbe {
        ProbeRemembers(retries, s, results, stopCalled, result);
      }
    case BlockedReturned(blocked, busyNow) =>
      if s.phase == AwaitingBlocked {
        BlockedRemembers(retries, s, results, stopCalled, blocked, busyNow);
      }
    case _ =>
  }

  lemma {:induction false} AlwaysRemembers(retries: nat, events: seq<Event>)
    ensures Remembers(retries, Run(retries, events), Results(retries, events), StopCalled in events)
  {
    if events == [] {
    } else {
      var front, last := events[..|events| - 1], events[|events| - 1];
      AlwaysRemembers(retries, front);
      assert events == front + [last];
      StepRemembers(retries, Run(retries, front), Results(retries, front), StopCalled in front, last);
    }
  }

  /** The same message is never reported twice in a row. */
  lemma ReportsChange(retries: nat, events: seq<Event>)
    ensures NoRepeats(Run(retries, events).reported)
  {
    AlwaysRemembers(retries, events);
  }

  lemma {:induction false} StoppedForever(retries: nat, events: seq<Event>, i: nat)
    requires i <= |events| && Run(retries, events[..i]).stopped
    ensures Run(retries, events).stopped && Run(retries, events).restarts == Run(retries, events[..i]).restarts
  {
    if i == |events| {
      assert events[..i] == events;
    } else {
      var front := events[..|events| - 1];
      assert front[..i] == events[..i];
      StoppedForever(retries, front, i);
    }
  }

  /** When event `i` makes the watchdog restart the process: a healthy probe came first, enough
      consecutive failures followed, nothing was running, and nobody had stopped it. */
  lemma RestartIsJustified(retries: nat, events: seq<Event>, i: nat)
    requires i < |events|
    requires Run(retries, events[..i + 1]).restarts > Run(retries, events[..i]).restarts
    ensures retries > 0
    ensures Ready in Results(retries, events[..i])
    ensures UnavailableSince(Results(retries, events[..i])) >= retries
    ensures events[i] == BlockedReturned(false, false)
    ensures StopCalled !in events[..i]
  {
    AlwaysRemembers(retries, events[..i]);
    assert events[..i + 1][..i] == events[..i];
  }

  /** At most one restart is requested in the life of a process. */
  lemma RestartsAtMostOnce(retries: nat, events: seq<Event>, i: nat, j: nat)
    requires i < j < |events|
    requires Run(retries, events[..i + 1]).restarts > Run(retries, events[..i]).restarts
    ensures Run(retries, events[..j + 1]).restarts == Run(retries, events[..j]).restarts
  {
    AlwaysRemembers(retries, events[..i + 1]);
    assert events[..j + 1][..i + 1] == events[..i + 1] && events[..j][..i + 1] == events[..i + 1];
    StoppedForever(retries, events[..j + 1], i + 1);
    StoppedForever(retries, events[..j], i + 1);
  }

  /** `n` failing checks in a row. */
  function Outage(n: nat): seq<Event> {
    if n == 0 then [] else Outage(n - 1) + [CheckCalled, ProbeReturned(Unavailable)]
  }

  lemma RunOne(retries: nat, events: seq<Event>, e: Event)
    ensures Run(retries, events + [e]) == Step(retries, Run(retries, events), e)
  {
    assert (events + [e])[..|events|] == events;
  }

  lemma RunTwo(retries: nat, events: seq<Event>, a: Event, b: Event)
    ensures Run(retries, events + [a, b]) == Step(retries, Step(retries, Run(retries, events), a), b)
  {
    assert events + [a, b] == (events + [a]) + [b];
    RunOne(retries, events, a);
    RunOne(retries, events + [a], b);
  }

  /** Conversely, after any history: when the check in progress brings the unavailable results to the
      configured number, with an earlier healthy probe and nothing running, the process is restarted. */
  lemma EnoughFailuresRestart(retries: nat, events: seq<Event>)
    requires Run(retries, events).phase == AwaitingProbe && !Run(retries, events).stopped
    requires Ready in Results(retries, events) && UnavailableSince(Results(retries, events)) + 1 >= retries
    ensures Run(retries, events).restarts == 0
    ensures Run(retries, events + [ProbeReturned(Unavailable), BlockedReturned(false, false)]).restarts == 1
  {
    AlwaysRemembers(retries, events);
    RunTwo(retries, events, ProbeReturned(Unavailable), BlockedReturned(false, false));
  }

  /** A history in which that happens: one healthy probe, then `retries` failing checks. */
  lemma {:induction false} OutageRestarts(retries: nat, n: nat)
    requires 0 < n <= retries
    ensures var events := [CheckCalled, ProbeReturned(Ready)] + Outage(n);
            var s := Run(retries, events);
            && !s.stopped && s.armed && s.failures == n && s.restarts == 0
            && s.phase == (if n < retries then Idle else AwaitingBlocked)
            && (n == retries ==> Step(retries, s, BlockedReturned(false, false)).restarts == 1)
  {
    var start := [CheckCalled, ProbeReturned(Ready)];
    if n == 1 {
      RunTwo(retries, [], CheckCalled, ProbeReturned(Ready));
      assert [] + start == start && start + Outage(0) == start;
    } else {
      OutageRestarts(retries, n - 1);
    }
    RunTwo(retries, start + Outage(n - 1), CheckCalled, ProbeReturned(Unavailable));
    assert start + Outage(n) == (start + Outage(n - 1)) + [CheckCalled, ProbeReturned(Unavailable)];
  }

  // ---------------------------------------------------- phases and messages from the history

  /** The answer to a probe that was not stopped meanwhile. */
  ghost function Verdict(s: State, e: Event): Option<ProbeResult> {
    if e.ProbeReturned? && s.phase == AwaitingProbe && !s.stopped then Some(e.result) else None
  }

  /** The probe, or the question whether something runs, ends with an exception. */
  ghost predicate Throws(s: State, e: Event) {
    (s.phase == AwaitingProbe && e == ProbeThrew) || (s.phase == AwaitingBlocked && e == BlockedThrew)
  }

  /** What an answer to a probe has to report after the results so far. */
  ghost function News(results: seq<ProbeResult>, result: ProbeResult): Option<Message> {
    match result
    case ConfigurationError => Some(Refused)
    case Ready => if Ready in results && UnavailableSince(results) > 0 then Some(Recovered) else None
    case Unavailable => if Ready !in results then Some(NotArmed) else if UnavailableSince(results) == 0 then Some(Lost) else None
  }

  /** What the next event has to report. */
  ghost function Due(s: State, results: seq<ProbeResult>, e: Event): Option<Message> {
    if Throws(s, e) then Some(CheckFailed)
    else if s.phase == AwaitingBlocked && e.BlockedReturned? then
      if e.blocked || e.busyNow then Some(Deferred) else if s.stopped then None else Some(Restarting)
    else if Verdict(s, e).Some? then News(results, Verdict(s, e).value)
    else None
  }

  ghost predicate Reports(before: seq<Message>, after: seq<Message>, due: Option<Message>) {
    match due
    case None => after == before
    case Some(m) => after == if before != [] && before[|before| - 1] == m then before else before + [m]
  }

  lemma ProbeReports(retries: nat, s: State, results: seq<ProbeResult>, stopCalled: bool, result: ProbeResult)
    requires Remembers(retries, s, results, stopCalled) && s.phase == AwaitingProbe && !s.stopped
    ensures Reports(s.reported, AfterProbe(retries, s, result).reported, News(results, result))
  {
  }

  /** Each report is the message that is due, unless it was the last one already. */
  lemma ReportsExactly(retries: nat, events: seq<Event>, e: Event)
    ensures var s := Run(retries, events);
            Reports(s.reported, Step(retries, s, e).reported, Due(s, Results(retries, events), e))
  {
    AlwaysRemembers(retries, events);
    var s := Run(retries, events);
    if Verdict(s, e).Some? {
      ProbeReports(retries, s, Results(retries, events), StopCalled in events, e.result);
    }
  }

  lemma PhaseMoves(retries: nat, s: State, results: seq<ProbeResult>, stopCalled: bool, e: Event)
    requires Remembers(retries, s, results, stopCalled)
    ensures var phase := Step(retries, s, e).phase;
            && (phase == AwaitingProbe <==>
                  || (e == CheckCalled && retries > 0 && s.phase == Idle && !s.stopped)
                  || (s.phase == AwaitingProbe && !e.ProbeReturned? && !e.ProbeThrew?))
            && (phase == AwaitingBlocked <==>
                  || (Verdict(s, e) == Some(Unavailable) && Ready in results && UnavailableSince(results) + 1 >= retries)
                  || (s.phase == AwaitingBlocked && !e.BlockedReturned? && !e.BlockedThrew?))
  {
  }

  /** A check waits for its probe from the call to the answer, and then for permission exactly when the
      unavailable answers since the last other one have become enough; every other answer ends it. */
  lemma PhasesExactly(retries: nat, events: seq<Event>, e: Event)
    ensures var s, results := Run(retries, events), Results(retries, events);
            var phase := Step(retries, s, e).phase;
            && (phase == AwaitingProbe <==>
                  || (e == CheckCalled && retries > 0 && s.phase == Idle && !s.stopped)
                  || (s.phase == AwaitingProbe && !e.ProbeReturned? && !e.ProbeThrew?))
            && (phase == AwaitingBlocked <==>
                  || (Verdict(s, e) == Some(Unavailable) && Ready in results && UnavailableSince(results) + 1 >= retries)
                  || (s.phase == AwaitingBlocked && !e.BlockedReturned? && !e.BlockedThrew?))
  {
    AlwaysRemembers(retries, events);
    PhaseMoves(retries, Run(retries, events), Results(retries, events), StopCalled in events, e);
  }
}
