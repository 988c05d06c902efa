/** How a run ends: what its action did decides what the journal says
    (backend/deployment-progress.ts, lines 164-185). */
module DeploymentResults {
  import opened Common
  import opened DeploymentRows
  import opened DeploymentJournal
  import opened DeploymentInvariants
  import opened DeploymentSafety
  import opened DeploymentOutcomes

  // ------------------------------------------------------- the end of an action

  /** The row a stack shows is that of the run of `c`. */
  ghost predicate Shows(s: State, c: Call, row: Row)
    requires Begun(c)
  {
    row in s.records && row.stack == c.stack && row.id == c.stage.id && Find(s.records, c.stack) == Some(row)
  }

  /** A run that returns is completed: its last step ends at that moment, its output is kept. A run that
      throws is failed, and the error is the end of its output. */
  ghost predicate EndedAs(row: Row, c: Call, outcome: Result<Time, string>) {
    match outcome
    case Ok(now) =>
      row.state == Completed && row.steps != [] && row.steps[|row.steps| - 1].finishedAt == Some(now) && Text(row) == Tail(Emitted(c.ops))
    case Err(error) =>
      row.state == Failed && Text(row) == Tail(Emitted(c.ops) + "\n" + error)
  }

  /** The run of `c` is over and its row says how. */
  ghost predicate Concludes(s: State, c: Call, outcome: Result<Time, string>)
    requires Begun(c)
  {
    exists row :: Shows(s, c, row) && EndedAs(row, c, outcome)
  }

  lemma LiveRowEnds(c: Call, outcome: Result<Time, string>)
    requires (c.stage.Starting? || c.stage.Acting?) && LiveRow(c).steps != []
    ensures EndedAs(Ended(LiveRow(c), outcome), c, outcome)
    ensures Ended(LiveRow(c), outcome).stack == c.stack && Ended(LiveRow(c), outcome).id == c.stage.id
  {
    LiveRowFacts(c);
    RowHistory(c.stage.id, c.stack, c.saved, c.ops);
    EndedMeans(LiveRow(c), c.saved, Reported(c.ops), Emitted(c.ops), outcome);
  }

  lemma EndShows(s: State, call: CallId, outcome: Result<Time, string>)
    requires DistinctStacks(s.records) && call in s.calls && (s.calls[call].stage.Starting? || s.calls[call].stage.Acting?)
    requires CallRow(s.records, s.calls[call])
    ensures var c := s.calls[call]; var t := DoEnd(s, call, c.stage.id, outcome);
            Concludes(t, c, outcome)
  {
    var c := s.calls[call];
    var live, ended := LiveRow(c), Ended(LiveRow(c), outcome);
    LiveRowFacts(c);
    LiveRowEnds(c, outcome);
    FindUnique(s.records, live);
    EndUpdates(s, call, c.stage.id, outcome, live);
    ReplaceMembers(s.records, ended);
    FindUnique(Replace(s.records, ended), ended);
    assert Shows(DoEnd(s, call, c.stage.id, outcome), c, ended);
  }

  lemma ReturnConcludes(s: State, call: CallId, now: Time)
    requires DistinctStacks(s.records) && IsActing(s, call) && CallRow(s.records, s.calls[call])
    ensures Concludes(DoReturn(s, call, now), s.calls[call], Ok(now))
  {
    EndShows(s.(returned := s.returned + {s.calls[call].stage.id}), call, Ok(now));
  }

  lemma ActionEndSteps(size: seq<Row> -> nat, s: State, call: CallId, now: Time, error: string)
    requires IsActing(s, call)
    ensures Step(size, s, ActionReturns(call, now)) == DoReturn(s, call, now)
    ensures Step(size, s, ActionThrows(call, error)) == DoEnd(s, call, s.calls[call].stage.id, Err(error))
  {
  }

  lemma ConcludesIn(s: State, call: CallId, now: Time, error: string)
    requires Core(s) && IsActing(s, call)
    ensures Concludes(DoReturn(s, call, now), s.calls[call], Ok(now))
    ensures Concludes(DoEnd(s, call, s.calls[call].stage.id, Err(error)), s.calls[call], Err(error))
  {
    ReturnConcludes(s, call, now);
    EndShows(s, call, Err(error));
  }

  /** In every reachable state: when the action of a run returns, the run is completed. */
  lemma ReturnCompletes(size: seq<Row> -> nat, file: File, nextId: RunId, past: set<RunId>, events: seq<Event>, call: CallId, now: Time)
    requires GoodFile(file, past, nextId) && IsActing(Run(size, Boot(file, nextId, past), events), call)
    ensures var s := Run(size, Boot(file, nextId, past), events);
            Concludes(Step(size, s, ActionReturns(call, now)), s.calls[call], Ok(now))
  {
    var s := Run(size, Boot(file, nextId, past), events);
    RunKeepsCore(size, file, nextId, past, events);
    ConcludesIn(s, call, now, "");
    ActionEndSteps(size, s, call, now, "");
  }

  /** In every reachable state: when the action of a run throws, the run is failed. */
  lemma ThrowFails(size: seq<Row> -> nat, file: File, nextId: RunId, past: set<RunId>, events: seq<Event>, call: CallId, error: string)
    requires GoodFile(file, past, nextId) && IsActing(Run(size, Boot(file, nextId, past), events), call)
    ensures var s := Run(size, Boot(file, nextId, past), events);
            Concludes(Step(size, s, ActionThrows(call, error)), s.calls[call], Err(error))
  {
    var s := Run(size, Boot(file, nextId, past), events);
    RunKeepsCore(size, file, nextId, past, events);
    ConcludesIn(s, call, 0, error);
    ActionEndSteps(size, s, call, 0, error);
  }

  /** An action starts exactly when its first snapshot has landed; when that write failed the run fails. */
  lemma StartsExactly(size: seq<Row> -> nat, s: State, initial: File, call: CallId, error: string)
    requires Core(s) && WritesOk(s, initial) && call in s.calls && s.calls[call].stage.Starting?
    ensures var c := s.calls[call]; var w := c.stage.write; var t := Step(size, s, StartAction(call, error));
            && call in t.calls
            && (t.calls[call].stage.Acting? <==> w in s.outcomes && w in s.landed)
            && (w !in s.outcomes ==> t == s)
            && (w in s.outcomes && w !in s.landed ==>
                  t.calls[call].stage.Ending? && Concludes(t, c, Err(error)))
  {
    var c := s.calls[call];
    if c.stage.write in s.outcomes && c.stage.write !in s.landed {
      LiveRowFacts(c);
      FindUnique(s.records, LiveRow(c));
      EndUpdates(s, call, c.stage.id, Err(error), LiveRow(c));
      EndShows(s, call, Err(error));
    }
  }

  /** A stack is released only when the last write of its run has finished. */
  lemma ReleasedIsWritten(size: seq<Row> -> nat, s: State, e: Event, k: CallId)
    requires k in s.calls && s.calls[k].stage.Ending? && !e.Crash?
    ensures k !in Step(size, s, e).calls <==> e == Release(k) && s.calls[k].stage.write in s.outcomes
  {
    match e
    case Begin(call, now) => if call in s.calls && call != k { BeginKeepsOthers(s, call, now, k); }
    case Release(_) =>
    case Load =>
    case Reserve(_, _, _, _) => OthersKeepCalls(size, s, e, k);
    case WriteTemp(_) => OthersKeepCalls(size, s, e, k);
    case Rename(_) => OthersKeepCalls(size, s, e, k);
    case _ => ActionKeepsOthers(size, s, e, k);
  }

  lemma OthersKeepCalls(size: seq<Row> -> nat, s: State, e: Event, k: CallId)
    requires k in s.calls && (e.Reserve? || e.WriteTemp? || e.Rename?)
    ensures k in Step(size, s, e).calls
  {
  }

  lemma BeginKeepsOthers(s: State, call: CallId, now: Time, k: CallId)
    requires call in s.calls && k in s.calls && k != call
    ensures k in DoBegin(s, call, now).calls
  {
  }

  lemma ActionKeepsOthers(size: seq<Row> -> nat, s: State, e: Event, k: CallId)
    requires k in s.calls && (e.StartAction? || e.ReportPhase? || e.EmitOutput? || e.ActionReturns? || e.ActionThrows?)
    ensures k in Step(size, s, e).calls
  {
  }

  /** The stack shows that run, saved and failed or interrupted. */
  ghost predicate Retryable(s: State, stack: StackName, id: RunId) {
    exists row :: row in s.records && row.stack == stack && row.id == id
                  && row.saved && (row.state == Failed || row.state == Interrupted)
  }

  lemma RetryAllowedMeans(s: State, stack: StackName, id: RunId)
    requires DistinctStacks(s.records)
    ensures RetryAllowed(s, stack, id) <==> Retryable(s, stack, id)
  {
    forall row | row in s.records && row.stack == stack ensures Find(s.records, stack) == Some(row) {
      FindUnique(s.records, row);
    }
  }

  /** A run begins exactly when its stack's row, if one is expected, is that of a saved run that
      failed or was interrupted, and there is room. */
  lemma BeginsExactly(size: seq<Row> -> nat, s: State, call: CallId, now: Time)
    requires DistinctStacks(s.records) && call in s.calls && s.calls[call].stage.Loading? && s.load == Loaded
    requires Admit(s, s.calls[call]).1
    ensures var c := s.calls[call]; var t := Step(size, s, Begin(call, now));
            && (call in t.calls <==>
                  c.expected.None? || Retryable(s, c.stack, c.expected.value))
            && (call in t.calls ==> t.calls[call].stage == Starting(s.nextId, |s.snapshots|))
  {
    var c := s.calls[call];
    if c.expected.Some? {
      RetryAllowedMeans(s, c.stack, c.expected.value);
    }
    BeginsUnlessRefused(s, call, now);
  }

  lemma BeginsUnlessRefused(s: State, call: CallId, now: Time)
    requires call in s.calls && Admit(s, s.calls[call]).1
    ensures var t := DoBegin(s, call, now);
            && (call in t.calls <==> !Refused(s, s.calls[call]))
            && (call in t.calls ==> t.calls[call].stage == Starting(s.nextId, |s.snapshots|))
  {
  }

  /** Loading succeeds exactly when there is no journal or one of bounded size; no journal is an empty one. */
  lemma LoadsExactly(size: seq<Row> -> nat, s: State)
    requires s.load == NotLoaded && s.records == []
    ensures var t := Step(size, s, Load);
            && (t.load == Loaded <==> s.file.Missing? || (s.file.Rows? && size(s.file.rows) <= 1024 * 1024))
            && (t.load == Loaded || t.load == LoadFailed)
            && (s.file.Missing? || t.load == LoadFailed ==> t.records == [])
  {
  }

  // ----------------------------------------------------------- run identifiers

  /** Identifiers tell runs apart, and a run in progress has not returned. */
  ghost predicate IdsOk(s: State) {
    && (forall id | id in s.returned :: id < s.nextId)
    && (forall k | k in s.calls && Begun(s.calls[k]) ::
          s.calls[k].stage.id < s.nextId && (!s.calls[k].stage.Ending? ==> s.calls[k].stage.id !in s.returned))
    && (forall k, l | k in s.calls && l in s.calls && Begun(s.calls[k]) && Begun(s.calls[l])
                      && s.calls[k].stage.id == s.calls[l].stage.id :: k == l)
  }

  /** Calls keep their identifiers, but one may have got a fresh one. */
  ghost predicate Carries(s: State, t: State) {
    && s.nextId <= t.nextId && t.returned == s.returned
    && (forall k | k in t.calls && Begun(t.calls[k]) :: Carried(s, t, k) || (t.calls[k].stage.id == s.nextId < t.nextId))
    && (forall k, l | k in t.calls && l in t.calls && Begun(t.calls[k]) && Begun(t.calls[l])
                      && !Carried(s, t, k) && !Carried(s, t, l) :: k == l)
  }

  ghost predicate Carried(s: State, t: State, k: CallId)
    requires k in t.calls && Begun(t.calls[k])
  {
    && k in s.calls && Begun(s.calls[k]) && t.calls[k].stage.id == s.calls[k].stage.id
    && (s.calls[k].stage.Ending? ==> t.calls[k].stage.Ending?)
  }

  lemma CarriesKeepsIds(s: State, t: State)
    requires IdsOk(s) && Carries(s, t)
    ensures IdsOk(t)
  {
  }

  lemma EnterCarries(s: State, t: State, call: CallId, now: Time)
    requires call in t.calls && s.nextId < t.nextId && t == s.(records := t.records, nextId := t.nextId)
    ensures Carries(s, Enter(t, call, s.nextId, now))
  {
    var u := Enter(t, call, s.nextId, now);
    assert u.calls == s.calls[call := u.calls[call]];
  }

  lemma LeaveCarries(s: State, t: State, call: CallId)
    requires call in t.calls && s.nextId <= t.nextId && t == s.(records := t.records, nextId := t.nextId)
    ensures Carries(s, Leave(t, call))
  {
  }

  lemma BeginCarries(s: State, call: CallId, now: Time)
    requires call in s.calls
    ensures Carries(s, DoBegin(s, call, now))
  {
    if Refused(s, s.calls[call]) {
      LeaveCarries(s, s, call);
    } else {
      var (t, ok) := Admit(s, s.calls[call]);
      if ok {
        EnterCarries(s, t, call, now);
      } else {
        LeaveCarries(s, t, call);
      }
    }
  }

  lemma UpdateCarries(s: State, t: State, call: CallId, row: Row, d: Call)
    requires call in s.calls && Begun(s.calls[call]) && Updated(s, t, call, row, d)
    requires Begun(d) && d.stage.id == s.calls[call].stage.id && (s.calls[call].stage.Ending? ==> d.stage.Ending?)
    ensures Carries(s, t)
  {
  }

  lemma OpCarries(s: State, call: CallId, op: Op)
    requires IsActing(s, call)
    ensures Carries(s, DoOp(s, call, op))
  {
    var found := Find(s.records, s.calls[call].stack);
    if found.Some? {
      OpUpdates(s, call, op, found.value);
      UpdateCarries(s, DoOp(s, call, op), call, Apply(found.value, op), s.calls[call].(ops := s.calls[call].ops + [op]));
    }
  }

  lemma EndCarries(s: State, call: CallId, outcome: Result<Time, string>)
    requires call in s.calls && (s.calls[call].stage.Starting? || s.calls[call].stage.Acting?)
    ensures Carries(s, DoEnd(s, call, s.calls[call].stage.id, outcome))
  {
    var c := s.calls[call];
    var found := Find(s.records, c.stack);
    if found.Some? {
      EndUpdates(s, call, c.stage.id, outcome, found.value);
      UpdateCarries(s, DoEnd(s, call, c.stage.id, outcome), call, Ended(found.value, outcome), c.(stage := Ending(c.stage.id, |s.snapshots|)));
    }
  }

  lemma StartCarries(s: State, call: CallId, error: string)
    requires call in s.calls && s.calls[call].stage.Starting?
    ensures Carries(s, DoStart(s, call, error))
  {
    if s.calls[call].stage.write in s.outcomes && !s.outcomes[s.calls[call].stage.write] {
      EndCarries(s, call, Err(error));
    }
  }

  lemma QuietCarries(size: seq<Row> -> nat, s: State, e: Event)
    requires e.Reserve? || e.WriteTemp? || e.Rename? || e.Release? || e.Crash?
    ensures Carries(s, Step(size, s, e))
  {
    match e
    case Reserve(call, stack, saved, expected) =>
    case WriteTemp(ok) =>
    case Rename(ok) =>
    case Release(call) =>
    case Crash =>
  }

  lemma LoadCarries(s: State, size: seq<Row> -> nat)
    ensures Carries(s, DoLoad(s, size))
  {
  }

  /** Returning takes the identifier from those in progress to those that have returned. */
  lemma ReturnKeepsIds(s: State, call: CallId, now: Time)
    requires Core(s) && IdsOk(s) && IsActing(s, call)
    ensures IdsOk(DoReturn(s, call, now))
  {
    var c := s.calls[call];
    var u := s.(returned := s.returned + {c.stage.id});
    LiveRowFacts(c);
    FindUnique(s.records, LiveRow(c));
    EndUpdates(u, call, c.stage.id, Ok(now), LiveRow(c));
    ReturnedIds(s, DoEnd(u, call, c.stage.id, Ok(now)), call);
  }

  lemma ReturnedIds(s: State, t: State, call: CallId)
    requires IdsOk(s) && IsActing(s, call) && t.nextId == s.nextId && t.returned == s.returned + {s.calls[call].stage.id}
    requires t.calls.Keys == s.calls.Keys && forall k | k in s.calls && k != call :: t.calls[k] == s.calls[k]
    requires t.calls[call].stage.Ending? && t.calls[call].stage.id == s.calls[call].stage.id
    ensures IdsOk(t)
  {
  }

  lemma StepKeepsIds(size: seq<Row> -> nat, s: State, e: Event)
    requires Core(s) && IdsOk(s)
    ensures IdsOk(Step(size, s, e))
  {
    match e
    case ActionReturns(call, now) => if IsActing(s, call) { ReturnKeepsIds(s, call, now); }
    case _ =>
      StepCarries(size, s, e);
      CarriesKeepsIds(s, Step(size, s, e));
  }

  lemma StepCarries(size: seq<Row> -> nat, s: State, e: Event)
    requires !e.ActionReturns?
    ensures Carries(s, Step(size, s, e))
  {
    match e
    case Load => LoadCarries(s, size);
    case Begin(call, now) => if call in s.calls { BeginCarries(s, call, now); }
    case StartAction(call, error) => if call in s.calls && s.calls[call].stage.Starting? { StartCarries(s, call, error); }
    case ReportPhase(call, phase, now) => if IsActing(s, call) { OpCarries(s, call, Report(phase, now)); }
    case EmitOutput(call, chunk) => if IsActing(s, call) { OpCarries(s, call, Emit(chunk)); }
    case ActionThrows(call, error) => if IsActing(s, call) { EndCarries(s, call, Err(error)); }
    case _ => QuietCarries(size, s, e);
  }

  lemma {:induction false} RunKeepsIds(size: seq<Row> -> nat, file: File, nextId: RunId, past: set<RunId>, events: seq<Event>)
    requires GoodFile(file, past, nextId) && forall id | id in past :: id < nextId
    ensures IdsOk(Run(size, Boot(file, nextId, past), events))
  {
    if events == [] {
    } else {
      var front := events[..|events| - 1];
      RunKeepsIds(size, file, nextId, past, front);
      RunKeepsCore(size, file, nextId, past, front);
      StepKeepsIds(size, Run(size, Boot(file, nextId, past), front), events[|events| - 1]);
    }
  }

  /** The runs that have returned are those whose action did. */
  lemma ReturnedStep(size: seq<Row> -> nat, s: State, e: Event)
    ensures Step(size, s, e).returned ==
            s.returned + if e.ActionReturns? && IsActing(s, e.call) then {s.calls[e.call].stage.id} else {}
  {
    match e
    case ActionReturns(call, now) =>
      if IsActing(s, call) {
        var found := Find(s.records, s.calls[call].stack);
        if found.Some? {
          EndUpdates(s.(returned := s.returned + {s.calls[call].stage.id}), call, s.calls[call].stage.id, Ok(now), found.value);
        }
      }
    case _ => StepCarries(size, s, e);
  }

  // -------------------------------------------------------------- the last write

  /** The finishing write of a run shows its outcome. */
  ghost predicate EndingSaved(s: State, c: Call) {
    c.stage.Ending? ==>
      c.stage.write < |s.snapshots|
      && exists row :: row in s.snapshots[c.stage.write] && row.stack == c.stack && row.id == c.stage.id
                       && row.state == if c.stage.id in s.returned then Completed else Failed
  }

  lemma FinishIsWritten(s: State, call: CallId, outcome: Result<Time, string>)
    requires call in s.calls && (s.calls[call].stage.Starting? || s.calls[call].stage.Acting?)
    requires DistinctStacks(s.records) && CallRow(s.records, s.calls[call])
    requires outcome.Ok? <==> s.calls[call].stage.id in s.returned
    ensures var t := DoEnd(s, call, s.calls[call].stage.id, outcome);
            call in t.calls && EndingSaved(t, t.calls[call])
  {
    var live := LiveRow(s.calls[call]);
    LiveRowFacts(s.calls[call]);
    FindUnique(s.records, live);
    var t := DoEnd(s, call, s.calls[call].stage.id, outcome);
    var ended := Ended(live, outcome);
    EndUpdates(s, call, s.calls[call].stage.id, outcome, live);
    ReplaceMembers(s.records, ended);
    var i :| 0 <= i < |t.records| && t.records[i] == ended;
    assert Snapshot(t.records)[i] == Strip(ended);
    assert Strip(ended) in t.snapshots[|s.snapshots|];
  }

  ghost predicate EndingsSaved(s: State) {
    forall k | k in s.calls :: EndingSaved(s, s.calls[k])
  }

  /** Only the events that end an action bring a call to its last stage. */
  lemma NewEndings(size: seq<Row> -> nat, s: State, e: Event, k: CallId)
    requires k in Step(size, s, e).calls && Step(size, s, e).calls[k].stage.Ending?
    ensures k in s.calls && (s.calls[k] == Step(size, s, e).calls[k]
                             || (e.StartAction? && e.call == k && s.calls[k].stage.Starting?)
                             || (e.ActionReturns? && e.call == k && s.calls[k].stage.Acting?)
                             || (e.ActionThrows? && e.call == k && s.calls[k].stage.Acting?))
  {
    match e
    case Begin(call, now) =>
      if call in s.calls && s.calls[call].stage.Loading? { BeginMakesNoEnding(s, call, now, k); }
    case StartAction(_, _) => EndEvents(size, s, e, k);
    case ActionReturns(_, _) => EndEvents(size, s, e, k);
    case ActionThrows(_, _) => EndEvents(size, s, e, k);
    case _ => OthersMakeNoEnding(size, s, e, k);
  }

  lemma EndEvents(size: seq<Row> -> nat, s: State, e: Event, k: CallId)
    requires e.StartAction? || e.ActionReturns? || e.ActionThrows?
    requires k in Step(size, s, e).calls
    ensures k in s.calls
    ensures s.calls[k] == Step(size, s, e).calls[k]
            || (e.call == k && if e.StartAction? then s.calls[k].stage.Starting? else s.calls[k].stage.Acting?)
  {
  }

  lemma OthersMakeNoEnding(size: seq<Row> -> nat, s: State, e: Event, k: CallId)
    requires !e.Begin? && !e.StartAction? && !e.ActionReturns? && !e.ActionThrows?
    requires k in Step(size, s, e).calls && Step(size, s, e).calls[k].stage.Ending?
    ensures k in s.calls && s.calls[k] == Step(size, s, e).calls[k]
  {
    match e
    case ReportPhase(call, phase, now) => if IsActing(s, call) { OpMakesNoEnding(s, call, Report(phase, now), k); }
    case EmitOutput(call, chunk) => if IsActing(s, call) { OpMakesNoEnding(s, call, Emit(chunk), k); }
    case Load =>
    case _ => QuietMakesNoEnding(size, s, e, k);
  }

  lemma OpMakesNoEnding(s: State, call: CallId, op: Op, k: CallId)
    requires IsActing(s, call) && k in DoOp(s, call, op).calls && DoOp(s, call, op).calls[k].stage.Ending?
    ensures k in s.calls && s.calls[k] == DoOp(s, call, op).calls[k]
  {
    var found := Find(s.records, s.calls[call].stack);
    if found.Some? {
      OpUpdates(s, call, op, found.value);
    }
  }

  lemma QuietMakesNoEnding(size: seq<Row> -> nat, s: State, e: Event, k: CallId)
    requires e.Reserve? || e.WriteTemp? || e.Rename? || e.Release? || e.Crash?
    requires k in Step(size, s, e).calls && Step(size, s, e).calls[k].stage.Ending?
    ensures k in s.calls && s.calls[k] == Step(size, s, e).calls[k]
  {
    match e
    case Reserve(call, stack, saved, expected) =>
    case WriteTemp(ok) =>
    case Rename(ok) =>
    case Release(call) =>
    case Crash =>
  }

  lemma BeginMakesNoEnding(s: State, call: CallId, now: Time, k: CallId)
    requires call in s.calls && s.calls[call].stage.Loading?
    ensures var t := DoBegin(s, call, now);
            k in t.calls && t.calls[k].stage.Ending? ==> k in s.calls && s.calls[k] == t.calls[k]
  {
  }

  lemma StepKeepsEndings(size: seq<Row> -> nat, s: State, e: Event)
    requires Core(s) && EndingsSaved(s) && IdsOk(s)
    ensures EndingsSaved(Step(size, s, e))
  {
    var t := Step(size, s, e);
    forall k | k in t.calls && t.calls[k].stage.Ending? ensures EndingSaved(t, t.calls[k]) {
      NewEndings(size, s, e, k);
      if s.calls[k] == t.calls[k] {
        StepHasNoLateWrites(size, s, e);
        ReturnedStep(size, s, e);
      } else {
        EndedNow(size, s, e, k);
      }
    }
  }

  lemma EndedByFailure(size: seq<Row> -> nat, s: State, e: Event, k: CallId)
    requires Core(s) && IdsOk(s) && k in s.calls && (e.StartAction? || e.ActionThrows?) && e.call == k
    requires if e.StartAction? then s.calls[k].stage.Starting? else s.calls[k].stage.Acting?
    requires Step(size, s, e) == DoEnd(s, k, s.calls[k].stage.id, Err(e.error))
    ensures var t := Step(size, s, e); k in t.calls && EndingSaved(t, t.calls[k])
  {
    FinishIsWritten(s, k, Err(e.error));
  }

  lemma EndedByReturn(s: State, k: CallId, now: Time)
    requires Core(s) && IsActing(s, k)
    ensures var t := DoReturn(s, k, now); k in t.calls && EndingSaved(t, t.calls[k])
  {
    FinishIsWritten(s.(returned := s.returned + {s.calls[k].stage.id}), k, Ok(now));
  }

  lemma FailureEnds(size: seq<Row> -> nat, s: State, e: Event)
    requires (e.StartAction? || e.ActionThrows?) && e.call in s.calls
    requires if e.StartAction? then s.calls[e.call].stage.Starting? else s.calls[e.call].stage.Acting?
    requires var t := Step(size, s, e); e.call in t.calls && t.calls[e.call].stage.Ending?
    ensures Step(size, s, e) == DoEnd(s, e.call, s.calls[e.call].stage.id, Err(e.error))
  {
  }

  lemma EndedNow(size: seq<Row> -> nat, s: State, e: Event, k: CallId)
    requires Core(s) && IdsOk(s) && k in s.calls && k in Step(size, s, e).calls && Step(size, s, e).calls[k].stage.Ending?
    requires s.calls[k] != Step(size, s, e).calls[k]
    ensures EndingSaved(Step(size, s, e), Step(size, s, e).calls[k])
  {
    NewEndings(size, s, e, k);
    if e.ActionReturns? {
      EndedByReturn(s, k, e.now);
    } else {
      FailureEnds(size, s, e);
      EndedByFailure(size, s, e, k);
    }
  }

  lemma {:induction false} RunKeepsEndings(size: seq<Row> -> nat, file: File, nextId: RunId, past: set<RunId>, events: seq<Event>)
    requires GoodFile(file, past, nextId) && forall id | id in past :: id < nextId
    ensures EndingsSaved(Run(size, Boot(file, nextId, past), events))
  {
    if events == [] {
    } else {
      var front := events[..|events| - 1];
      RunKeepsEndings(size, file, nextId, past, front);
      RunKeepsCore(size, file, nextId, past, front);
      RunKeepsIds(size, file, nextId, past, front);
      StepKeepsEndings(size, Run(size, Boot(file, nextId, past), front), events[|events| - 1]);
    }
  }

  // ---------------------------------------------------------------- main results

  /** The row of a run that has ended: completed exactly when its action returned, else failed. */
  ghost predicate EndRow(s: State, c: Call, row: Row)
    requires Begun(c)
  {
    && row.stack == c.stack && row.id == c.stage.id
    && (row.state == Completed <==> c.stage.id in s.returned)
    && (row.state == Failed <==> c.stage.id !in s.returned)
  }

  /** Over every history: the last snapshot of a run shows it as completed if its action returned
      and as failed if it did not. */
  lemma OutcomeOfEachRun(size: seq<Row> -> nat, file: File, nextId: RunId, past: set<RunId>, events: seq<Event>, k: CallId)
    requires GoodFile(file, past, nextId) && forall id | id in past :: id < nextId
    requires var s := Run(size, Boot(file, nextId, past), events); k in s.calls && s.calls[k].stage.Ending?
    ensures var s := Run(size, Boot(file, nextId, past), events); var c := s.calls[k];
            c.stage.write < |s.snapshots| && exists row :: row in s.snapshots[c.stage.write] && EndRow(s, c, row)
  {
    RunKeepsEndings(size, file, nextId, past, events);
    var s := Run(size, Boot(file, nextId, past), events);
    assert EndingSaved(s, s.calls[k]);
    var row :| row in s.snapshots[s.calls[k].stage.write] && row.stack == s.calls[k].stack && row.id == s.calls[k].stage.id
               && row.state == if s.calls[k].stage.id in s.returned then Completed else Failed;
  }

  /** A run whose last write succeeded has an outcome that nothing later contradicts: completed if its
      action returned and failed otherwise. */
  lemma SavedOutcomeIsFinal(size: seq<Row> -> nat, file: File, nextId: RunId, past: set<RunId>, events: seq<Event>,
                            more: seq<Event>, k: CallId)
    requires GoodFile(file, past, nextId) && forall id | id in past :: id < nextId
    requires var s := Run(size, Boot(file, nextId, past), events);
             k in s.calls && s.calls[k].stage.Ending? && s.calls[k].stage.write in s.outcomes && s.outcomes[s.calls[k].stage.write]
    ensures var s := Run(size, Boot(file, nextId, past), events); var c := s.calls[k];
            exists row: Row :: row.stack == c.stack && row.id == c.stage.id
                               && row.state == (if c.stage.id in s.returned then Completed else Failed)
                               && ShownEverywhere(Run(size, Boot(file, nextId, past), events + more), c.stage.write, row)
  {
    var s := Run(size, Boot(file, nextId, past), events);
    var c := s.calls[k];
    RunKeepsEndings(size, file, nextId, past, events);
    RunKeepsWrites(size, file, nextId, past, events);
    assert EndingSaved(s, c);
    var row :| row in s.snapshots[c.stage.write] && row.stack == c.stack && row.id == c.stage.id
               && row.state == if c.stage.id in s.returned then Completed else Failed;
    WrittenOutcomeIsFinal(size, file, nextId, past, events, more, c.stage.write, row);
  }

  // -------------------------------------------- a crash while an action is running

  ghost predicate ShowsRunning(rows: seq<Row>, c: Call)
    requires Begun(c)
  {
    exists row :: row in rows && row.stack == c.stack && row.id == c.stage.id && row.state == Running
  }

  /** Every snapshot from write `w` on shows the run of `c` as running. */
  ghost predicate RunningSince(s: State, w: nat, c: Call)
    requires Begun(c)
  {
    w < |s.snapshots| && forall j | w <= j < |s.snapshots| :: ShowsRunning(s.snapshots[j], c)
  }

  /** A run shows as running in all snapshots since its first; once its action has started, that one has landed. */
  ghost predicate RunningSaved(s: State, c: Call) {
    match c.stage
    case Starting(_, w) => RunningSince(s, w, c)
    case Acting(_) => exists w :: w in s.landed && RunningSince(s, w, c)
    case _ => true
  }

  ghost predicate AllRunningSaved(s: State) {
    forall k | k in s.calls :: RunningSaved(s, s.calls[k])
  }

  lemma LiveSnapshotShowsRunning(rows: seq<Row>, c: Call)
    requires (c.stage.Starting? || c.stage.Acting?) && LiveRow(c) in rows
    ensures ShowsRunning(Snapshot(rows), c)
  {
    LiveRowFacts(c);
    var i :| 0 <= i < |rows| && rows[i] == LiveRow(c);
    assert Snapshot(rows)[i] in Snapshot(rows);
  }

  /** The call goes on, under the same identifier, and the table still has its row. */
  lemma RunningGoesOn(s: State, t: State, w: nat, c: Call, d: Call)
    requires Begun(c) && (d.stage.Starting? || d.stage.Acting?) && d.stack == c.stack && d.stage.id == c.stage.id
    requires RunningSince(s, w, c) && LiveRow(d) in t.records
    requires t.snapshots == s.snapshots || t.snapshots == s.snapshots + [Snapshot(t.records)]
    ensures RunningSince(t, w, d)
  {
    LiveSnapshotShowsRunning(t.records, d);
    forall j | w <= j < |t.snapshots| ensures ShowsRunning(t.snapshots[j], d) {
      if j < |s.snapshots| {
        assert ShowsRunning(s.snapshots[j], c);
      }
    }
  }

  /** A call in progress was already so, at the same write, or starts acting or enters with this event. */
  ghost predicate GoesOn(s: State, t: State, k: CallId)
    requires k in t.calls
  {
    && k in s.calls && Begun(s.calls[k]) && s.calls[k].stack == t.calls[k].stack
    && Begun(t.calls[k]) && s.calls[k].stage.id == t.calls[k].stage.id
    && match t.calls[k].stage
       case Starting(_, w) => s.calls[k].stage == t.calls[k].stage
       case Acting(_) => s.calls[k].stage.Acting? || (s.calls[k].stage.Starting? && s.calls[k].stage.write in t.landed)
       case _ => false
  }

  ghost predicate Enters(s: State, t: State, k: CallId)
    requires k in t.calls
  {
    t.calls[k].stage.Starting? && t.calls[k].stage.write == |s.snapshots| && |t.snapshots| == |s.snapshots| + 1
  }

  lemma StaysSaved(s: State, t: State, k: CallId)
    requires AllRunningSaved(s) && k in t.calls && CallRow(t.records, t.calls[k])
    requires t.calls[k].stage.Starting? || t.calls[k].stage.Acting?
    requires t.snapshots == s.snapshots || t.snapshots == s.snapshots + [Snapshot(t.records)]
    requires forall w | w in s.landed :: w in t.landed
    requires GoesOn(s, t, k) || Enters(s, t, k)
    ensures RunningSaved(t, t.calls[k])
  {
    var d := t.calls[k];
    if Enters(s, t, k) {
      LiveSnapshotShowsRunning(t.records, d);
    } else {
      var c := s.calls[k];
      assert RunningSaved(s, c);
      if c.stage.Starting? {
        RunningGoesOn(s, t, c.stage.write, c, d);
      } else {
        var w :| w in s.landed && RunningSince(s, w, c);
        RunningGoesOn(s, t, w, c, d);
      }
    }
  }

  lemma EnterGoesOn(s: State, t: State, call: CallId, id: RunId, now: Time, k: CallId)
    requires call in s.calls && t == s.(records := t.records, nextId := t.nextId) && k in Enter(t, call, id, now).calls
    requires var d := Enter(t, call, id, now).calls[k]; d.stage.Starting? || d.stage.Acting?
    ensures GoesOn(s, Enter(t, call, id, now), k) || Enters(s, Enter(t, call, id, now), k)
  {
    var u := Enter(t, call, id, now);
    assert k != call ==> u.calls[k] == s.calls[k];
  }

  lemma LeaveGoesOn(s: State, t: State, call: CallId, k: CallId)
    requires call in s.calls && t == s.(records := t.records, nextId := t.nextId) && k in Leave(t, call).calls
    requires s.calls[k].stage.Starting? || s.calls[k].stage.Acting?
    ensures GoesOn(s, Leave(t, call), k)
  {
  }

  lemma BeginGoesOn(s: State, call: CallId, now: Time, k: CallId)
    requires call in s.calls && s.calls[call].stage.Loading?
    requires k in DoBegin(s, call, now).calls
    requires var d := DoBegin(s, call, now).calls[k]; d.stage.Starting? || d.stage.Acting?
    ensures GoesOn(s, DoBegin(s, call, now), k) || Enters(s, DoBegin(s, call, now), k)
  {
    if Refused(s, s.calls[call]) {
      LeaveGoesOn(s, s, call, k);
    } else {
      var (t, ok) := Admit(s, s.calls[call]);
      if ok {
        EnterGoesOn(s, t, call, s.nextId, now, k);
      } else {
        LeaveGoesOn(s, t, call, k);
      }
    }
  }

  lemma UpdateGoesOn(s: State, t: State, call: CallId, row: Row, d: Call, k: CallId)
    requires call in s.calls && Begun(s.calls[call]) && Updated(s, t, call, row, d)
    requires d.stack == s.calls[call].stack && (d.stage == s.calls[call].stage || d.stage.Ending?)
    requires k in t.calls && (t.calls[k].stage.Starting? || t.calls[k].stage.Acting?)
    ensures GoesOn(s, t, k)
  {
  }

  lemma OpGoesOn(s: State, call: CallId, op: Op, k: CallId)
    requires IsActing(s, call) && k in DoOp(s, call, op).calls
    requires var d := DoOp(s, call, op).calls[k]; d.stage.Starting? || d.stage.Acting?
    ensures GoesOn(s, DoOp(s, call, op), k)
  {
    var found := Find(s.records, s.calls[call].stack);
    if found.Some? {
      OpUpdates(s, call, op, found.value);
      UpdateGoesOn(s, DoOp(s, call, op), call, Apply(found.value, op), s.calls[call].(ops := s.calls[call].ops + [op]), k);
    }
  }

  lemma EndGoesOn(s: State, call: CallId, outcome: Result<Time, string>, k: CallId)
    requires call in s.calls && (s.calls[call].stage.Starting? || s.calls[call].stage.Acting?)
    requires k in DoEnd(s, call, s.calls[call].stage.id, outcome).calls
    requires var d := DoEnd(s, call, s.calls[call].stage.id, outcome).calls[k]; d.stage.Starting? || d.stage.Acting?
    ensures GoesOn(s, DoEnd(s, call, s.calls[call].stage.id, outcome), k)
  {
    var c := s.calls[call];
    var found := Find(s.records, c.stack);
    if found.Some? {
      EndUpdates(s, call, c.stage.id, outcome, found.value);
      UpdateGoesOn(s, DoEnd(s, call, c.stage.id, outcome), call, Ended(found.value, outcome), c.(stage := Ending(c.stage.id, |s.snapshots|)), k);
    }
  }

  lemma StartGoesOn(s: State, initial: File, call: CallId, error: string, k: CallId)
    requires WritesOk(s, initial) && call in s.calls && s.calls[call].stage.Starting? && k in DoStart(s, call, error).calls
    requires var d := DoStart(s, call, error).calls[k]; d.stage.Starting? || d.stage.Acting?
    ensures GoesOn(s, DoStart(s, call, error), k)
  {
    var w := s.calls[call].stage.write;
    if w in s.outcomes && !s.outcomes[w] {
      EndGoesOn(s, call, Err(error), k);
    }
  }

  lemma LoadKeepsCalls(s: State, size: seq<Row> -> nat)
    ensures DoLoad(s, size).calls == s.calls
  {
  }

  lemma LoadGoesOn(s: State, size: seq<Row> -> nat, k: CallId)
    requires k in s.calls && (s.calls[k].stage.Starting? || s.calls[k].stage.Acting?)
    ensures k in DoLoad(s, size).calls && GoesOn(s, DoLoad(s, size), k)
  {
    assert DoLoad(s, size).calls == s.calls;
  }

  lemma QuietGoesOn(size: seq<Row> -> nat, s: State, e: Event, k: CallId)
    requires e.Reserve? || e.WriteTemp? || e.Rename? || e.Release? || e.Crash?
    requires k in Step(size, s, e).calls
    requires var d := Step(size, s, e).calls[k]; d.stage.Starting? || d.stage.Acting?
    ensures GoesOn(s, Step(size, s, e), k)
  {
    match e
    case Reserve(call, stack, saved, expected) =>
    case WriteTemp(ok) =>
    case Rename(ok) =>
    case Release(call) =>
    case Crash =>
  }

  lemma StepGoesOn(size: seq<Row> -> nat, s: State, initial: File, e: Event, k: CallId)
    requires WritesOk(s, initial) && k in Step(size, s, e).calls
    requires var d := Step(size, s, e).calls[k]; d.stage.Starting? || d.stage.Acting?
    ensures GoesOn(s, Step(size, s, e), k) || Enters(s, Step(size, s, e), k)
  {
    match e
    case Begin(call, now) =>
      if call in s.calls && s.calls[call].stage.Loading? && s.load != NotLoaded { BeginGoesOn(s, call, now, k); }
    case StartAction(call, error) => if call in s.calls && s.calls[call].stage.Starting? { StartGoesOn(s, initial, call, error, k); }
    case ReportPhase(call, phase, now) => if IsActing(s, call) { OpGoesOn(s, call, Report(phase, now), k); }
    case EmitOutput(call, chunk) => if IsActing(s, call) { OpGoesOn(s, call, Emit(chunk), k); }
    case ActionReturns(call, now) =>
      if IsActing(s, call) { EndGoesOn(s.(returned := s.returned + {s.calls[call].stage.id}), call, Ok(now), k); }
    case ActionThrows(call, error) => if IsActing(s, call) { EndGoesOn(s, call, Err(error), k); }
    case Load =>
      LoadKeepsCalls(s, size);
      if s.load == NotLoaded { LoadGoesOn(s, size, k); }
    case _ => QuietGoesOn(size, s, e, k);
  }

  lemma StepKeepsRunningSaved(size: seq<Row> -> nat, s: State, initial: File, e: Event)
    requires AllRunningSaved(s) && WritesOk(s, initial) && Core(Step(size, s, e))
    ensures AllRunningSaved(Step(size, s, e))
  {
    var t := Step(size, s, e);
    StepHasNoLateWrites(size, s, e);
    LandedStay(size, s, e);
    forall k | k in t.calls && (t.calls[k].stage.Starting? || t.calls[k].stage.Acting?) ensures RunningSaved(t, t.calls[k]) {
      StepGoesOn(size, s, initial, e, k);
      StaysSaved(s, t, k);
    }
  }

  lemma {:induction false} RunKeepsRunningSaved(size: seq<Row> -> nat, file: File, nextId: RunId, past: set<RunId>, events: seq<Event>)
    requires GoodFile(file, past, nextId)
    ensures AllRunningSaved(Run(size, Boot(file, nextId, past), events))
  {
    if events == [] {
    } else {
      var front := events[..|events| - 1];
      RunKeepsRunningSaved(size, file, nextId, past, front);
      RunKeepsWrites(size, file, nextId, past, front);
      RunKeepsCore(size, file, nextId, past, events);
      StepKeepsRunningSaved(size, Run(size, Boot(file, nextId, past), front), file, events[|events| - 1]);
    }
  }

  lemma LastLandedShowsRunning(s: State, initial: File, c: Call)
    requires WritesOk(s, initial) && c.stage.Acting? && RunningSaved(s, c)
    ensures s.landed != [] && LastLanded(s) < |s.snapshots| && ShowsRunning(s.snapshots[LastLanded(s)], c)
  {
    var w :| w in s.landed && RunningSince(s, w, c);
    var i :| 0 <= i < |s.landed| && s.landed[i] == w;
    assert w <= LastLanded(s);
  }

  lemma ReopenedShowsInterrupted(rows: seq<Row>, c: Call)
    requires Begun(c) && ShowsRunning(rows, c)
    ensures exists row :: row in ReopenAll(rows) && row.stack == c.stack && row.id == c.stage.id && row.state == Interrupted
  {
    var row :| row in rows && row.stack == c.stack && row.id == c.stage.id && row.state == Running;
    var i :| 0 <= i < |rows| && rows[i] == row;
    assert ReopenAll(rows)[i] in ReopenAll(rows);
  }

  /** A crash while an action runs never hides that it was started: the next process shows the run as
      interrupted, provided the last snapshot is within the limits of a journal. */
  lemma CrashShowsInterrupted(size: seq<Row> -> nat, file: File, nextId: RunId, past: set<RunId>, events: seq<Event>, k: CallId)
    requires GoodFile(file, past, nextId) && IsActing(Run(size, Boot(file, nextId, past), events), k)
    ensures var s := Run(size, Boot(file, nextId, past), events); var c := s.calls[k]; var t := DoLoad(DoCrash(s), size);
            && s.landed != [] && LastLanded(s) < |s.snapshots|
            && (size(s.snapshots[LastLanded(s)]) <= MAX_FILE && |s.snapshots[LastLanded(s)]| <= MAX_RECORDS ==>
                  exists row :: row in t.records && row.stack == c.stack && row.id == c.stage.id && row.state == Interrupted)
  {
    var s := Run(size, Boot(file, nextId, past), events);
    RunKeepsRunningSaved(size, file, nextId, past, events);
    RunKeepsWrites(size, file, nextId, past, events);
    assert RunningSaved(s, s.calls[k]);
    LastLandedShowsRunning(s, file, s.calls[k]);
    CrashThenLoad(size, file, nextId, past, events);
    ReopenedShowsInterrupted(s.snapshots[LastLanded(s)], s.calls[k]);
  }
}
