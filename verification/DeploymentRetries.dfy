/** Retrying with a given identifier starts at most once over a whole history
    (backend/deployment-progress.ts, lines 116-137, 164-168). */
module DeploymentRetries {
  import opened Common
  import opened DeploymentRows
  import opened DeploymentJournal
  import opened DeploymentInvariants

  // ---------------------------------------------------------------- definitions

  /** No row of that stack has that identifier. */
  ghost predicate Lacks(rows: seq<Row>, stack: StackName, id: RunId) {
    forall row | row in rows :: row.stack != stack || row.id != id
  }

  /** The table and every snapshot since write `w` lack an identifier issued before. */
  ghost predicate GoneSince(s: State, w: nat, stack: StackName, id: RunId) {
    && id < s.nextId && Lacks(s.records, stack, id)
    && forall j | w <= j < |s.snapshots| :: Lacks(s.snapshots[j], stack, id)
  }

  /** A retry between its first report and its action. */
  ghost predicate Pending(s: State, c: Call) {
    c.stage.Starting? && c.expected.Some? ==>
      (c.stack, c.expected.value) !in s.retried && GoneSince(s, c.stage.write, c.stack, c.expected.value)
  }

  ghost predicate RetriesOk(s: State) {
    && (forall stack, id | (stack, id) in s.retried ::
          s.retried[(stack, id)] in s.landed && GoneSince(s, s.retried[(stack, id)], stack, id))
    && forall k | k in s.calls :: Pending(s, s.calls[k])
  }

  /** Rows only lose identifiers or get fresh ones. */
  ghost predicate OnlyFresh(s: State, t: State) {
    && s.nextId <= t.nextId
    && (forall stack, id: RunId | id < s.nextId && Lacks(s.records, stack, id) :: Lacks(t.records, stack, id))
    && (t.snapshots == s.snapshots || t.snapshots == s.snapshots + [Snapshot(t.records)])
  }

  lemma SnapshotLacks(rows: seq<Row>, stack: StackName, id: RunId)
    requires Lacks(rows, stack, id)
    ensures Lacks(Snapshot(rows), stack, id)
  {
    forall row | row in Snapshot(rows) ensures row.stack != stack || row.id != id {
      var i :| 0 <= i < |rows| && Snapshot(rows)[i] == row;
      assert rows[i] in rows;
    }
  }

  lemma StaysGone(s: State, t: State, w: nat, stack: StackName, id: RunId)
    requires GoneSince(s, w, stack, id) && OnlyFresh(s, t)
    ensures GoneSince(t, w, stack, id)
  {
    SnapshotLacks(t.records, stack, id);
  }

  /** No retry starts its action and no new call becomes a pending retry. */
  ghost predicate NoNewRetry(s: State, t: State) {
    && t.retried == s.retried && (forall w | w in s.landed :: w in t.landed)
    && forall k | k in t.calls && t.calls[k].stage.Starting? :: k in s.calls && s.calls[k] == t.calls[k]
  }

  lemma RetriesStayOk(s: State, t: State)
    requires RetriesOk(s) && OnlyFresh(s, t) && NoNewRetry(s, t)
    ensures RetriesOk(t)
  {
    forall stack, id | (stack, id) in t.retried
      ensures t.retried[(stack, id)] in t.landed && GoneSince(t, t.retried[(stack, id)], stack, id)
    {
      StaysGone(s, t, s.retried[(stack, id)], stack, id);
    }
    forall k | k in t.calls ensures Pending(t, t.calls[k]) {
      var c := t.calls[k];
      if c.stage.Starting? && c.expected.Some? {
        assert Pending(s, s.calls[k]);
        StaysGone(s, t, c.stage.write, c.stack, c.expected.value);
      }
    }
  }

  // ------------------------------------------------------------------- by event

  lemma ReplaceLacks(rows: seq<Row>, row: Row, stack: StackName, id: RunId)
    requires Lacks(rows, stack, id) && exists r :: r in rows && r.stack == row.stack && r.id == row.id
    ensures Lacks(Replace(rows, row), stack, id)
  {
    ReplaceMembers(rows, row);
  }

  lemma UpdateIsFresh(s: State, t: State, row: Row)
    requires t.records == Replace(s.records, row) && exists r :: r in s.records && r.stack == row.stack && r.id == row.id
    requires t.nextId == s.nextId && (t.snapshots == s.snapshots || t.snapshots == s.snapshots + [Snapshot(t.records)])
    ensures OnlyFresh(s, t)
  {
    forall stack, id | Lacks(s.records, stack, id) ensures Lacks(t.records, stack, id) {
      ReplaceLacks(s.records, row, stack, id);
    }
  }

  lemma OpMakesNoRetry(s: State, call: CallId, op: Op)
    requires IsActing(s, call)
    ensures NoNewRetry(s, DoOp(s, call, op))
  {
    var found := Find(s.records, s.calls[call].stack);
    if found.Some? {
      OpUpdates(s, call, op, found.value);
    }
  }

  lemma OpKeepsRetries(s: State, call: CallId, op: Op)
    requires RetriesOk(s) && IsActing(s, call)
    ensures RetriesOk(DoOp(s, call, op))
  {
    OpIsFresh(s, call, op);
    OpMakesNoRetry(s, call, op);
    RetriesStayOk(s, DoOp(s, call, op));
  }

  lemma EndKeepsRetries(s: State, call: CallId, id: RunId, outcome: Result<Time, string>)
    requires RetriesOk(s) && call in s.calls
    ensures RetriesOk(DoEnd(s, call, id, outcome))
  {
    EndIsFresh(s, call, id, outcome);
    RetriesStayOk(s, DoEnd(s, call, id, outcome));
  }

  /** The first snapshot is in the journal: from now on no table or file can show the retried run. */
  lemma StartKeepsRetries(s: State, call: CallId, error: string, initial: File)
    requires RetriesOk(s) && WritesOk(s, initial) && call in s.calls && s.calls[call].stage.Starting?
    requires CallsOk(s)
    ensures RetriesOk(DoStart(s, call, error))
  {
    var c := s.calls[call];
    if c.stage.write in s.outcomes {
      if s.outcomes[c.stage.write] {
        var t := DoStart(s, call, error);
        assert Pending(s, c);
        assert c.stage.write in s.landed;
        assert OnlyFresh(s, t);
        forall stack, id | (stack, id) in t.retried
          ensures t.retried[(stack, id)] in t.landed && GoneSince(t, t.retried[(stack, id)], stack, id)
        {
          if c.expected == Some(id) && stack == c.stack {
            StaysGone(s, t, c.stage.write, stack, id);
          } else {
            assert (stack, id) in s.retried;
            StaysGone(s, t, s.retried[(stack, id)], stack, id);
          }
        }
        forall k | k in t.calls ensures Pending(t, t.calls[k]) {
          if k != call {
            assert Pending(s, s.calls[k]) && s.calls[k].stack != c.stack;
          }
        }
      } else {
        EndKeepsRetries(s, call, c.stage.id, Err(error));
      }
    }
  }

  lemma AdmitIsFresh(s: State, c: Call)
    requires Core(s) && ValidName(c.stack) && c.stack in s.active
    ensures OnlyFresh(s, Admit(s, c).0)
    ensures forall id: RunId | id < s.nextId :: Lacks(Admit(s, c).0.records, c.stack, id)
  {
    AdmitKeepsTable(s, c, Admit(s, c).0.records);
  }

  lemma OpIsFresh(s: State, call: CallId, op: Op)
    requires IsActing(s, call)
    ensures OnlyFresh(s, DoOp(s, call, op))
  {
    var found := Find(s.records, s.calls[call].stack);
    if found.Some? {
      OpUpdates(s, call, op, found.value);
      UpdateIsFresh(s, DoOp(s, call, op), Apply(found.value, op));
    }
  }

  lemma EndIsFresh(s: State, call: CallId, id: RunId, outcome: Result<Time, string>)
    requires call in s.calls
    ensures OnlyFresh(s, DoEnd(s, call, id, outcome))
  {
    var found := Find(s.records, s.calls[call].stack);
    if found.Some? {
      EndUpdates(s, call, id, outcome, found.value);
      UpdateIsFresh(s, DoEnd(s, call, id, outcome), Ended(found.value, outcome));
    }
  }

  /** The retried run was still shown, so it was not retried before; its row is gone now. */
  lemma OthersStayPending(t: State, u: State, call: CallId)
    requires RetriesOk(t) && OnlyFresh(t, u) && u.retried == t.retried && u.landed == t.landed
    requires forall k | k in u.calls && k != call :: k in t.calls && u.calls[k] == t.calls[k]
    requires call in u.calls ==> Pending(u, u.calls[call])
    ensures RetriesOk(u)
  {
    forall stack, id | (stack, id) in u.retried
      ensures u.retried[(stack, id)] in u.landed && GoneSince(u, u.retried[(stack, id)], stack, id)
    {
      StaysGone(t, u, t.retried[(stack, id)], stack, id);
    }
    forall k | k in u.calls && k != call ensures Pending(u, u.calls[k]) {
      assert Pending(t, t.calls[k]);
      if u.calls[k].stage.Starting? && u.calls[k].expected.Some? {
        StaysGone(t, u, u.calls[k].stage.write, u.calls[k].stack, u.calls[k].expected.value);
      }
    }
  }

  /** The retry that enters is pending: its run was shown until now and is gone. */
  lemma EnteredIsPending(s: State, t: State, u: State, c: Call)
    requires Core(s) && RetriesOk(s) && (c.expected.Some? ==> RetryAllowed(s, c.stack, c.expected.value))
    requires s.retried == u.retried && t.snapshots == s.snapshots && t.nextId <= u.nextId && s.nextId <= t.nextId
    requires forall id: RunId | id < s.nextId :: Lacks(u.records, c.stack, id)
    requires u.snapshots == s.snapshots + [Snapshot(u.records)]
    requires c.stage.Starting? && c.stage.write == |s.snapshots|
    ensures Pending(u, c)
  {
    if c.expected.Some? {
      RetriedIsFirst(s, c);
      SnapshotLacks(u.records, c.stack, c.expected.value);
    }
  }

  lemma EnterIsFresh(t: State, call: CallId, id: RunId, now: Time)
    requires call in t.calls && NewRow(id, t.calls[call].stack, t.calls[call].saved) in t.records && id < t.nextId
    ensures OnlyFresh(t, Enter(t, call, id, now))
    ensures forall other: RunId | other != id && Lacks(t.records, t.calls[call].stack, other) ::
              Lacks(Enter(t, call, id, now).records, t.calls[call].stack, other)
  {
    var row := NewRow(id, t.calls[call].stack, t.calls[call].saved);
    UpdateIsFresh(t, Enter(t, call, id, now), Apply(row, Report(row.phase, now)));
    ReplaceMembers(t.records, Apply(row, Report(row.phase, now)));
  }

  lemma EnterKeepsRetries(s: State, t: State, call: CallId, now: Time)
    requires Core(s) && RetriesOk(s) && call in s.calls && s.calls[call].stage.Loading?
    requires !Refused(s, s.calls[call]) && t == Admit(s, s.calls[call]).0
    requires NewRow(s.nextId, s.calls[call].stack, s.calls[call].saved) in t.records
    ensures RetriesOk(Enter(t, call, s.nextId, now))
  {
    var u := Enter(t, call, s.nextId, now);
    AdmitIsFresh(s, s.calls[call]);
    RetriesStayOk(s, t);
    EnterIsFresh(t, call, s.nextId, now);
    EnteredIsPending(s, t, u, u.calls[call]);
    OthersStayPending(t, u, call);
  }

  lemma RetriedIsFirst(s: State, c: Call)
    requires Core(s) && RetriesOk(s) && c.expected.Some? && RetryAllowed(s, c.stack, c.expected.value)
    ensures (c.stack, c.expected.value) !in s.retried && c.expected.value < s.nextId
  {
    var row := Find(s.records, c.stack).value;
    assert row in s.records && row.stack == c.stack && row.id == c.expected.value;
    assert !Lacks(s.records, c.stack, c.expected.value);
  }

  lemma BeginKeepsRetries(s: State, call: CallId, now: Time)
    requires Core(s) && RetriesOk(s) && call in s.calls && s.calls[call].stage.Loading? && s.load != NotLoaded
    ensures RetriesOk(DoBegin(s, call, now))
  {
    var c := s.calls[call];
    if Refused(s, c) {
      RetriesStayOk(s, DoBegin(s, call, now));
    } else {
      assert c.stack in s.active;
      AdmitIsFresh(s, c);
      var (t, ok) := Admit(s, c);
      if ok {
        AdmitKeepsTable(s, c, t.records);
        EnterKeepsRetries(s, t, call, now);
      } else {
        RetriesStayOk(s, t);
        RetriesStayOk(t, Leave(t, call));
      }
    }
  }

  lemma LoadedLacks(rows: seq<Row>, stack: StackName, id: RunId)
    requires Lacks(rows, stack, id)
    ensures Lacks(LoadRows(Last100(rows)), stack, id)
  {
    LoadIsWellFormed(Last100(rows));
    forall row | row in LoadRows(Last100(rows)) ensures row.stack != stack || row.id != id {
      var r :| r in Last100(rows) && row == Reopened(r);
      assert r in rows;
    }
  }

  /** The journal file is no older than the first snapshot of any retry. */
  lemma FileLacks(s: State, initial: File, stack: StackName, id: RunId)
    requires RetriesOk(s) && WritesOk(s, initial) && (stack, id) in s.retried && s.file.Rows?
    ensures Lacks(s.file.rows, stack, id)
  {
    var w := s.retried[(stack, id)];
    var i :| 0 <= i < |s.landed| && s.landed[i] == w;
    var last := s.landed[|s.landed| - 1];
    assert w <= last < |s.snapshots|;
    assert GoneSince(s, w, stack, id);
  }

  lemma RecordsAfterLoad(s: State, size: seq<Row> -> nat, initial: File, stack: StackName, id: RunId)
    requires RetriesOk(s) && WritesOk(s, initial) && (stack, id) in s.retried
    ensures Lacks(DoLoad(s, size).records, stack, id)
  {
    assert GoneSince(s, s.retried[(stack, id)], stack, id);
    if s.file.Rows? {
      FileLacks(s, initial, stack, id);
      LoadedLacks(s.file.rows, stack, id);
    }
  }

  lemma RetriesSurviveLoad(s: State, t: State)
    requires RetriesOk(s) && t == s.(load := t.load, records := t.records)
    requires forall stack, id | (stack, id) in s.retried :: Lacks(t.records, stack, id)
    requires forall k | k in s.calls :: s.calls[k].stage == Loading
    ensures RetriesOk(t)
  {
    forall stack, id | (stack, id) in t.retried
      ensures t.retried[(stack, id)] in t.landed && GoneSince(t, t.retried[(stack, id)], stack, id)
    {
      assert GoneSince(s, s.retried[(stack, id)], stack, id);
    }
  }

  lemma NoneStarted(s: State)
    requires CallsOk(s) && s.load == NotLoaded
    ensures forall k | k in s.calls :: s.calls[k].stage == Loading
  {
  }

  lemma LoadChangesTable(s: State, size: seq<Row> -> nat)
    ensures var t := DoLoad(s, size); t == s.(load := t.load, records := t.records)
  {
  }

  lemma LoadKeepsRetries(s: State, size: seq<Row> -> nat, initial: File)
    requires Core(s) && RetriesOk(s) && WritesOk(s, initial) && s.load == NotLoaded
    ensures RetriesOk(DoLoad(s, size))
  {
    forall stack, id | (stack, id) in s.retried ensures Lacks(DoLoad(s, size).records, stack, id) {
      RecordsAfterLoad(s, size, initial, stack, id);
    }
    NoneStarted(s);
    LoadChangesTable(s, size);
    RetriesSurviveLoad(s, DoLoad(s, size));
  }

  lemma QuietMakesNoRetry(size: seq<Row> -> nat, s: State, e: Event)
    requires e.Reserve? || e.WriteTemp? || e.Rename? || e.Release? || e.Crash?
    ensures OnlyFresh(s, Step(size, s, e))
    ensures Step(size, s, e).retried == s.retried && forall w | w in s.landed :: w in Step(size, s, e).landed
  {
    match e
    case Reserve(call, stack, saved, expected) =>
    case WriteTemp(ok) =>
    case Rename(ok) =>
    case Release(call) =>
    case Crash =>
  }

  lemma QuietStartsNone(size: seq<Row> -> nat, s: State, e: Event)
    requires e.Reserve? || e.WriteTemp? || e.Rename? || e.Release? || e.Crash?
    ensures var t := Step(size, s, e);
            forall k | k in t.calls && t.calls[k].stage.Starting? :: k in s.calls && s.calls[k] == t.calls[k]
  {
    match e
    case Reserve(call, stack, saved, expected) =>
    case WriteTemp(ok) =>
    case Rename(ok) =>
    case Release(call) =>
    case Crash =>
  }

  lemma QuietKeepsRetries(size: seq<Row> -> nat, s: State, e: Event)
    requires RetriesOk(s)
    requires e.Reserve? || e.WriteTemp? || e.Rename? || e.Release? || e.Crash?
    ensures RetriesOk(Step(size, s, e))
  {
    QuietMakesNoRetry(size, s, e);
    QuietStartsNone(size, s, e);
    RetriesStayOk(s, Step(size, s, e));
  }

  lemma StepKeepsRetries(size: seq<Row> -> nat, s: State, e: Event, initial: File)
    requires Core(s) && RetriesOk(s) && WritesOk(s, initial)
    ensures RetriesOk(Step(size, s, e))
  {
    match e
    case Load => if s.load == NotLoaded { LoadKeepsRetries(s, size, initial); }
    case Begin(call, now) =>
      if call in s.calls && s.calls[call].stage.Loading? && s.load != NotLoaded { BeginKeepsRetries(s, call, now); }
    case StartAction(call, error) =>
      if call in s.calls && s.calls[call].stage.Starting? { StartKeepsRetries(s, call, error, initial); }
    case ReportPhase(call, phase, now) => if IsActing(s, call) { OpKeepsRetries(s, call, Report(phase, now)); }
    case EmitOutput(call, chunk) => if IsActing(s, call) { OpKeepsRetries(s, call, Emit(chunk)); }
    case ActionReturns(call, now) =>
      if IsActing(s, call) {
        var id := s.calls[call].stage.id;
        RetriesStayOk(s, s.(returned := s.returned + {id}));
        EndKeepsRetries(s.(returned := s.returned + {id}), call, id, Ok(now));
      }
    case ActionThrows(call, error) => if IsActing(s, call) { EndKeepsRetries(s, call, s.calls[call].stage.id, Err(error)); }
    case _ => QuietKeepsRetries(size, s, e);
  }

  // -------------------------------------------------------------------- counting

  /** The event starts the action of a retry of run `id` on `stack`. */
  predicate Starts(s: State, e: Event, stack: StackName, id: RunId) {
    e.StartAction? && e.call in s.calls && s.calls[e.call].stage.Starting?
    && s.calls[e.call].stage.write in s.outcomes && s.outcomes[s.calls[e.call].stage.write]
    && s.calls[e.call].stack == stack && s.calls[e.call].expected == Some(id)
  }

  function StartCount(size: seq<Row> -> nat, s: State, events: seq<Event>, stack: StackName, id: RunId): nat {
    if events == [] then 0
    else
      var front, e := events[..|events| - 1], events[|events| - 1];
      StartCount(size, s, front, stack, id) + if Starts(Run(size, s, front), e, stack, id) then 1 else 0
  }

  lemma BeginRemembersRetries(s: State, call: CallId, now: Time)
    requires call in s.calls
    ensures DoBegin(s, call, now).retried == s.retried
  {
  }

  lemma StepRemembersRetries(size: seq<Row> -> nat, s: State, e: Event, stack: StackName, id: RunId)
    ensures (stack, id) in Step(size, s, e).retried <==> (stack, id) in s.retried || Starts(s, e, stack, id)
  {
    match e
    case Begin(call, now) => if call in s.calls { BeginRemembersRetries(s, call, now); }
    case StartAction(call, error) =>
    case _ => OthersRememberRetries(size, s, e);
  }

  lemma EndMakesNoRetry(s: State, call: CallId, id: RunId, outcome: Result<Time, string>)
    requires call in s.calls
    ensures DoEnd(s, call, id, outcome).retried == s.retried
  {
    var found := Find(s.records, s.calls[call].stack);
    if found.Some? {
      EndUpdates(s, call, id, outcome, found.value);
    }
  }

  lemma OthersRememberRetries(size: seq<Row> -> nat, s: State, e: Event)
    requires !e.Begin? && !e.StartAction?
    ensures Step(size, s, e).retried == s.retried
  {
    match e
    case ReportPhase(call, phase, now) => if IsActing(s, call) { OpMakesNoRetry(s, call, Report(phase, now)); }
    case EmitOutput(call, chunk) => if IsActing(s, call) { OpMakesNoRetry(s, call, Emit(chunk)); }
    case ActionReturns(call, now) =>
      if IsActing(s, call) {
        EndMakesNoRetry(s.(returned := s.returned + {s.calls[call].stage.id}), call, s.calls[call].stage.id, Ok(now));
      }
    case ActionThrows(call, error) => if IsActing(s, call) { EndMakesNoRetry(s, call, s.calls[call].stage.id, Err(error)); }
    case Load =>
    case _ => QuietMakesNoRetry(size, s, e);
  }

  /** Over any history with crashes and failed writes, a run is retried at most once. */
  lemma {:induction false} RetriedAtMostOnce(size: seq<Row> -> nat, file: File, nextId: RunId, past: set<RunId>,
                                             events: seq<Event>, stack: StackName, id: RunId)
    requires GoodFile(file, past, nextId)
    ensures var s := Boot(file, nextId, past);
            && RetriesOk(Run(size, s, events))
            && StartCount(size, s, events, stack, id) == (if (stack, id) in Run(size, s, events).retried then 1 else 0)
            && StartCount(size, s, events, stack, id) <= 1
  {
    if events == [] {
    } else {
      var front, e := events[..|events| - 1], events[|events| - 1];
      var before := Run(size, Boot(file, nextId, past), front);
      RetriedAtMostOnce(size, file, nextId, past, front, stack, id);
      RunKeepsCore(size, file, nextId, past, front);
      RunKeepsWrites(size, file, nextId, past, front);
      StepKeepsRetries(size, before, e, file);
      StepRemembersRetries(size, before, e, stack, id);
      if Starts(before, e, stack, id) {
        assert Pending(before, before.calls[e.call]);
      }
    }
  }
}
