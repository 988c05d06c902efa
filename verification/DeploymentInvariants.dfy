/** What every run of the deployment journal keeps, and what a reload after a crash shows. */
module DeploymentInvariants {
  import opened Common
  import opened DeploymentRows
  import opened DeploymentJournal

  // ---------------------------------------------------------------- definitions

  predicate Begun(c: Call) {
    !c.stage.Loading?
  }

  /** Active stacks are those of the calls in progress, one call per stack. */
  ghost predicate CallsOk(s: State) {
    && (forall x :: x in s.active <==> exists k :: k in s.calls && s.calls[k].stack == x)
    && (forall k, l | k in s.calls && l in s.calls && s.calls[k].stack == s.calls[l].stack :: k == l)
    && (forall k | k in s.calls :: ValidName(s.calls[k].stack))
    && (s.load != Loaded ==> s.records == [] && forall k | k in s.calls :: !Begun(s.calls[k]))
  }

  /** A row is well formed, its identifier has been issued, and "completed" means its action returned. */
  ghost predicate Good(row: Row, returned: set<RunId>, nextId: RunId) {
    && RowOk(row) && row.id < nextId
    && (row.state == Completed ==> row.id in returned)
  }

  ghost predicate GoodRows(rows: seq<Row>, returned: set<RunId>, nextId: RunId) {
    forall row | row in rows :: Good(row, returned, nextId)
  }

  ghost predicate GoodTable(rows: seq<Row>, returned: set<RunId>, nextId: RunId) {
    DistinctStacks(rows) && GoodRows(rows, returned, nextId) && forall row | row in rows :: ValidName(row.stack)
  }

  ghost predicate GoodFile(file: File, returned: set<RunId>, nextId: RunId) {
    file.Rows? ==> GoodRows(file.rows, returned, nextId)
  }

  ghost predicate TablesOk(s: State) {
    && GoodTable(s.records, s.returned, s.nextId)
    && forall k | 0 <= k < |s.snapshots| :: GoodTable(s.snapshots[k], s.returned, s.nextId)
  }

  /** The row of a running action is determined by what it reported and emitted. */
  function LiveRow(c: Call): Row
    requires c.stage.Starting? || c.stage.Acting?
  {
    ApplyAll(NewRow(c.stage.id, c.stack, c.saved), c.ops)
  }

  /** A run that was saved before skips the saving phase. */
  predicate FirstReport(c: Call) {
    c.ops != [] && c.ops[0].Report? && c.ops[0].phase == if c.saved then Prerequisites else Phase.Save
  }

  /** The record of a call whose row exists: never evicted, never another run's. */
  ghost predicate CallRow(records: seq<Row>, c: Call) {
    match c.stage
    case Loading => true
    case Starting(_, _) => LiveRow(c) in records && LiveRow(c).steps != [] && FirstReport(c)
    case Acting(_) => LiveRow(c) in records && LiveRow(c).steps != [] && FirstReport(c)
    case Ending(id, _) => exists row :: row in records && row.stack == c.stack && row.id == id && row.state in {Completed, Failed}
  }

  ghost predicate Core(s: State) {
    && CallsOk(s)
    && TablesOk(s)
    && forall k | k in s.calls :: CallRow(s.records, s.calls[k])
  }

  // ---------------------------------------------------------------- small facts

  lemma {:induction false} IdentityKept(row: Row, ops: seq<Op>)
    ensures ApplyAll(row, ops).id == row.id && ApplyAll(row, ops).stack == row.stack
  {
    if ops == [] {
    } else {
      IdentityKept(row, ops[..|ops| - 1]);
    }
  }

  lemma LiveRowFacts(c: Call)
    requires c.stage.Starting? || c.stage.Acting?
    ensures LiveRow(c).id == c.stage.id && LiveRow(c).stack == c.stack
    ensures RowOk(LiveRow(c)) && LiveRow(c).state == Running
  {
    IdentityKept(NewRow(c.stage.id, c.stack, c.saved), c.ops);
    RowHistory(c.stage.id, c.stack, c.saved, c.ops);
  }

  lemma SnapshotGood(rows: seq<Row>, returned: set<RunId>, nextId: RunId)
    requires GoodTable(rows, returned, nextId)
    ensures GoodTable(Snapshot(rows), returned, nextId)
  {
    forall row | row in Snapshot(rows) ensures Good(row, returned, nextId) && ValidName(row.stack) {
      var i :| 0 <= i < |rows| && Snapshot(rows)[i] == row;
      assert rows[i] in rows;
    }
  }

  /** Good rows stay good when more runs return or more identifiers are issued. */
  lemma GoodGrows(s: State, returned: set<RunId>, nextId: RunId)
    requires TablesOk(s) && s.returned <= returned && s.nextId <= nextId
    ensures GoodTable(s.records, returned, nextId)
    ensures forall k | 0 <= k < |s.snapshots| :: GoodTable(s.snapshots[k], returned, nextId)
  {
  }

  lemma ReplaceGood(rows: seq<Row>, row: Row, returned: set<RunId>, nextId: RunId)
    requires GoodTable(rows, returned, nextId) && Good(row, returned, nextId) && ValidName(row.stack)
    ensures GoodTable(Replace(rows, row), returned, nextId)
  {
    ReplaceMembers(rows, row);
  }

  /** `t` has the records of `s` or persisted them. */
  lemma TablesAfter(s: State, t: State)
    requires TablesOk(s) && s.returned <= t.returned && s.nextId <= t.nextId
    requires GoodTable(t.records, t.returned, t.nextId)
    requires t.snapshots == s.snapshots || t.snapshots == s.snapshots + [Snapshot(t.records)]
    ensures TablesOk(t)
  {
    GoodGrows(s, t.returned, t.nextId);
    SnapshotGood(t.records, t.returned, t.nextId);
  }

  /** Replacing the row of one stack keeps the rows of the calls on other stacks. */
  lemma OthersKeepRows(records: seq<Row>, row: Row, c: Call)
    requires CallRow(records, c) && c.stack != row.stack
    ensures CallRow(Replace(records, row), c)
  {
    ReplaceMembers(records, row);
    if c.stage.Starting? || c.stage.Acting? {
      LiveRowFacts(c);
    } else if c.stage.Ending? {
      var r :| r in records && r.stack == c.stack && r.id == c.stage.id && r.state in {Completed, Failed};
      assert r in Replace(records, row);
    }
  }

  // -------------------------------------------------------------- core, by event

  lemma ReserveKeepsCalls(s: State, call: CallId, c: Call)
    requires CallsOk(s) && call !in s.calls && c.stack !in s.active && ValidName(c.stack) && c.stage == Loading
    ensures CallsOk(s.(active := s.active + {c.stack}, calls := s.calls[call := c]))
  {
    var t := s.(active := s.active + {c.stack}, calls := s.calls[call := c]);
    forall x ensures x in t.active <==> exists k :: k in t.calls && t.calls[k].stack == x {
      assert t.calls[call].stack == c.stack;
      if x in s.active {
        var k :| k in s.calls && s.calls[k].stack == x;
        assert k in t.calls && t.calls[k].stack == x;
      }
    }
    forall k | k in s.calls ensures s.calls[k].stack != c.stack {
      assert s.calls[k].stack in s.active;
    }
  }

  lemma ReserveKeepsCore(s: State, call: CallId, stack: StackName, saved: bool, expected: Option<RunId>)
    requires Core(s)
    ensures Core(DoReserve(s, call, stack, saved, expected))
  {
    var t := DoReserve(s, call, stack, saved, expected);
    if t != s {
      ReserveKeepsCalls(s, call, t.calls[call]);
    }
  }

  lemma LeaveKeepsCore(s: State, call: CallId)
    requires Core(s) && call in s.calls
    ensures Core(Leave(s, call))
  {
    var t := Leave(s, call);
    forall x ensures x in t.active <==> exists k :: k in t.calls && t.calls[k].stack == x {
      if x in t.active {
        var k :| k in s.calls && s.calls[k].stack == x;
        assert k in t.calls;
      }
    }
  }

  lemma ReopenedGood(row: Row, returned: set<RunId>, nextId: RunId)
    requires Good(row, returned, nextId)
    ensures Good(Reopened(row), returned, nextId)
  {
  }

  lemma LoadedIsGood(rows: seq<Row>, returned: set<RunId>, nextId: RunId)
    requires GoodRows(rows, returned, nextId)
    ensures GoodTable(LoadRows(Last100(rows)), returned, nextId)
  {
    var last := Last100(rows);
    assert forall r | r in last :: r in rows;
    LoadIsWellFormed(last);
    forall row | row in LoadRows(last) ensures Good(row, returned, nextId) {
      var r :| r in last && row == Reopened(r);
      ReopenedGood(r, returned, nextId);
    }
  }

  lemma TableOnLoad(s: State, size: seq<Row> -> nat)
    requires GoodFile(s.file, s.returned, s.nextId) && s.records == []
    ensures GoodTable(DoLoad(s, size).records, s.returned, s.nextId)
  {
    if s.file.Rows? {
      LoadedIsGood(s.file.rows, s.returned, s.nextId);
    }
  }

  lemma CallsOnLoad(s: State, t: State)
    requires CallsOk(s) && s.load == NotLoaded && t == s.(load := t.load, records := t.records)
    requires t.load != Loaded ==> t.records == []
    ensures CallsOk(t) && forall k | k in t.calls :: CallRow(t.records, t.calls[k])
  {
    assert forall k | k in s.calls :: s.calls[k].stage == Loading;
  }

  lemma LoadKeepsCore(s: State, size: seq<Row> -> nat)
    requires Core(s) && s.load == NotLoaded && GoodFile(s.file, s.returned, s.nextId)
    ensures Core(DoLoad(s, size))
  {
    TableOnLoad(s, size);
    CallsOnLoad(s, DoLoad(s, size));
  }

  lemma NextLiveRow(c: Call, op: Op)
    requires c.stage.Acting?
    ensures LiveRow(c.(ops := c.ops + [op])) == Apply(LiveRow(c), op)
  {
    assert (c.ops + [op])[..|c.ops|] == c.ops;
  }

  lemma OpKeepsCore(s: State, call: CallId, op: Op)
    requires Core(s) && IsActing(s, call)
    ensures Core(DoOp(s, call, op))
  {
    var c := s.calls[call];
    var d := c.(ops := c.ops + [op]);
    LiveRowFacts(c);
    LiveRowFacts(d);
    FindUnique(s.records, LiveRow(c));
    NextLiveRow(c, op);
    OpKeepsGood(LiveRow(c), op, s.returned, s.nextId);
    OpUpdates(s, call, op, LiveRow(c));
    InstallKeepsCore(s, DoOp(s, call, op), call, LiveRow(d), d);
  }

  lemma OpKeepsGood(row: Row, op: Op, returned: set<RunId>, nextId: RunId)
    requires Good(row, returned, nextId) && row.state == Running && row.steps != []
    ensures Good(Apply(row, op), returned, nextId) && Apply(row, op).steps != []
  {
    match op
    case Report(phase, now) => ReportKeepsOk(row, phase, now);
    case Emit(chunk) => EmitKeepsOk(row, chunk);
  }

  lemma InstallKeepsTables(s: State, t: State, call: CallId, row: Row, d: Call)
    requires TablesOk(s) && Updated(s, t, call, row, d) && Good(row, t.returned, t.nextId) && ValidName(row.stack)
    ensures TablesOk(t)
  {
    ReplaceGood(s.records, row, t.returned, t.nextId);
    TablesAfter(s, t);
  }

  /** Updating the row of a call together with the call itself. */
  lemma InstallKeepsCore(s: State, t: State, call: CallId, row: Row, d: Call)
    requires Core(s) && call in s.calls && Begun(s.calls[call]) && d.stack == s.calls[call].stack == row.stack && Begun(d)
    requires Updated(s, t, call, row, d)
    requires Good(row, t.returned, t.nextId) && exists r :: r in s.records && r.stack == row.stack
    requires row in t.records ==> CallRow(t.records, d)
    ensures Core(t)
  {
    ReplaceMembers(s.records, row);
    InstallKeepsTables(s, t, call, row, d);
    SameStacksKeepCalls(s, t);
    forall k | k in t.calls && k != call ensures CallRow(t.records, t.calls[k]) {
      OthersKeepRows(s.records, row, s.calls[k]);
    }
  }

  lemma SameStacksKeepCalls(s: State, t: State)
    requires CallsOk(s) && s.load == Loaded
    requires t.calls.Keys == s.calls.Keys && t.active == s.active && t.load == s.load
    requires forall k | k in s.calls :: t.calls[k].stack == s.calls[k].stack
    ensures CallsOk(t)
  {
    forall x ensures x in t.active <==> exists k :: k in t.calls && t.calls[k].stack == x {
      if x in s.active {
        var k :| k in s.calls && s.calls[k].stack == x;
        assert k in t.calls && t.calls[k].stack == x;
      }
    }
  }

  lemma ReturnedKeepsCore(s: State, returned: set<RunId>)
    requires Core(s) && s.returned <= returned
    ensures Core(s.(returned := returned))
  {
    GoodGrows(s, returned, s.nextId);
  }

  lemma EndedGood(row: Row, outcome: Result<Time, string>, returned: set<RunId>, nextId: RunId)
    requires Good(row, returned, nextId) && row.state == Running && row.steps != []
    requires outcome.Ok? ==> row.id in returned
    ensures Good(Ended(row, outcome), returned, nextId)
  {
    EndKeepsOk(row, if outcome.Ok? then outcome.value else 0, if outcome.Err? then outcome.error else "");
  }

  lemma EndKeepsCore(s: State, call: CallId, outcome: Result<Time, string>)
    requires Core(s) && call in s.calls && (s.calls[call].stage.Starting? || s.calls[call].stage.Acting?)
    requires outcome.Ok? ==> s.calls[call].stage.id in s.returned
    ensures Core(DoEnd(s, call, s.calls[call].stage.id, outcome))
  {
    var c := s.calls[call];
    var live := LiveRow(c);
    LiveRowFacts(c);
    FindUnique(s.records, live);
    EndedGood(live, outcome, s.returned, s.nextId);
    EndUpdates(s, call, c.stage.id, outcome, live);
    InstallKeepsCore(s, DoEnd(s, call, c.stage.id, outcome), call, Ended(live, outcome), c.(stage := Ending(c.stage.id, |s.snapshots|)));
  }

  lemma ReturnKeepsCore(s: State, call: CallId, now: Time)
    requires Core(s) && IsActing(s, call)
    ensures Core(DoReturn(s, call, now))
  {
    var returned := s.returned + {s.calls[call].stage.id};
    ReturnedKeepsCore(s, returned);
    EndKeepsCore(s.(returned := returned), call, Ok(now));
  }

  lemma ActingKeepsCore(s: State, call: CallId)
    requires Core(s) && call in s.calls && s.calls[call].stage.Starting?
    ensures Core(SetCall(s, call, s.calls[call].(stage := Acting(s.calls[call].stage.id))))
  {
    var t := SetCall(s, call, s.calls[call].(stage := Acting(s.calls[call].stage.id)));
    SameStacksKeepCalls(s, t);
    assert LiveRow(t.calls[call]) == LiveRow(s.calls[call]);
  }

  lemma StartKeepsCore(s: State, call: CallId, error: string)
    requires Core(s) && call in s.calls && s.calls[call].stage.Starting?
    ensures Core(DoStart(s, call, error))
  {
    var write := s.calls[call].stage.write;
    if write in s.outcomes {
      if s.outcomes[write] {
        ActingKeepsCore(s, call);
      } else {
        EndKeepsCore(s, call, Err(error));
      }
    }
  }

  lemma NewRowGood(id: RunId, stack: StackName, saved: bool, now: Time, returned: set<RunId>)
    ensures var row := NewRow(id, stack, saved);
            && Good(row, returned, id + 1)
            && Good(Apply(row, Report(row.phase, now)), returned, id + 1)
            && Apply(row, Report(row.phase, now)).steps != []
  {
    var row := NewRow(id, stack, saved);
    ReportKeepsOk(row, row.phase, now);
  }

  /** The rows before eviction. */
  lemma AdmittedRows(s: State, c: Call)
    requires TablesOk(s) && ValidName(c.stack)
    ensures var row := NewRow(s.nextId, c.stack, c.saved); var all := Delete(s.records, c.stack) + [row];
            && GoodTable(all, s.returned, s.nextId + 1) && row in all
            && forall r :: r in all <==> r == row || (r in s.records && r.stack != c.stack)
  {
    var row := NewRow(s.nextId, c.stack, c.saved);
    var all := Delete(s.records, c.stack) + [row];
    NewRowGood(s.nextId, c.stack, c.saved, 0, s.returned);
    forall i | 0 <= i < |all| - 1 ensures all[i].stack != row.stack {
      assert all[i] in Delete(s.records, c.stack);
    }
    GoodGrows(s, s.returned, s.nextId + 1);
  }

  /** The table after the new row is added and old rows are evicted. */
  lemma AdmitKeepsTable(s: State, c: Call, kept: seq<Row>)
    requires Core(s) && ValidName(c.stack) && c.stack in s.active
    requires kept == Evict(Delete(s.records, c.stack) + [NewRow(s.nextId, c.stack, c.saved)], s.active).0
    ensures GoodTable(kept, s.returned, s.nextId + 1)
    ensures NewRow(s.nextId, c.stack, c.saved) in kept
    ensures forall row | row in s.records && row.stack in s.active && row.stack != c.stack :: row in kept
    ensures forall row | row in kept :: row == NewRow(s.nextId, c.stack, c.saved) || (row in s.records && row.stack != c.stack)
  {
    AdmittedRows(s, c);
  }

  lemma CallsKeepRowsIn(records: seq<Row>, kept: seq<Row>, active: set<StackName>, c: Call, stack: StackName)
    requires CallRow(records, c) && c.stack in active && c.stack != stack
    requires forall row | row in records && row.stack in active && row.stack != stack :: row in kept
    ensures CallRow(kept, c)
  {
    if c.stage.Starting? || c.stage.Acting? {
      LiveRowFacts(c);
    } else if c.stage.Ending? {
      var r :| r in records && r.stack == c.stack && r.id == c.stage.id && r.state in {Completed, Failed};
      assert r in kept;
    }
  }

  /** The new row is in the table, whether or not the run goes on. */
  lemma AdmitKeepsCore(s: State, call: CallId)
    requires Core(s) && call in s.calls && s.calls[call].stage.Loading? && s.load == Loaded
    ensures Core(Admit(s, s.calls[call]).0)
  {
    var c := s.calls[call];
    var t := Admit(s, c).0;
    AdmitKeepsTable(s, c, t.records);
    TablesAfter(s, t);
    forall k | k in t.calls ensures CallRow(t.records, t.calls[k]) {
      if k != call {
        assert s.calls[k].stack in s.active && s.calls[k].stack != c.stack;
        CallsKeepRowsIn(s.records, t.records, s.active, s.calls[k], c.stack);
      }
    }
  }

  lemma EnterKeepsCore(s: State, call: CallId, id: RunId, now: Time)
    requires Core(s) && call in s.calls && s.calls[call].stage.Loading? && s.load == Loaded
    requires NewRow(id, s.calls[call].stack, s.calls[call].saved) in s.records && id + 1 == s.nextId
    ensures Core(Enter(s, call, id, now))
  {
    var c := s.calls[call];
    var row := NewRow(id, c.stack, c.saved);
    var op := Report(row.phase, now);
    var t := Enter(s, call, id, now);
    var d := t.calls[call];
    assert [op][..0] == [];
    assert LiveRow(d) == Apply(ApplyAll(row, []), op) == Apply(row, op);
    NewRowGood(id, c.stack, c.saved, now, s.returned);
    ReplaceMembers(s.records, Apply(row, op));
    ReplaceGood(s.records, Apply(row, op), t.returned, t.nextId);
    TablesAfter(s, t);
    SameStacksKeepCalls(s, t);
    forall k | k in t.calls ensures CallRow(t.records, t.calls[k]) {
      if k != call {
        OthersKeepRows(s.records, Apply(row, op), s.calls[k]);
      }
    }
  }

  lemma BeginKeepsCore(s: State, call: CallId, now: Time)
    requires Core(s) && call in s.calls && s.calls[call].stage.Loading? && s.load != NotLoaded
    ensures Core(DoBegin(s, call, now))
  {
    if Refused(s, s.calls[call]) {
      LeaveKeepsCore(s, call);
    } else {
      var (t, ok) := Admit(s, s.calls[call]);
      AdmitKeepsCore(s, call);
      if ok {
        AdmitKeepsTable(s, s.calls[call], t.records);
        EnterKeepsCore(t, call, s.nextId, now);
      } else {
        LeaveKeepsCore(t, call);
      }
    }
  }

  lemma CrashKeepsCore(s: State)
    requires Core(s)
    ensures Core(DoCrash(s))
  {
  }

  lemma WriterKeepsCore(s: State, ok: bool)
    requires Core(s)
    ensures Core(DoWriteTemp(s, ok)) && Core(DoRename(s, ok))
  {
  }

  /** The journal file holds good rows: it is the initial one or a snapshot. */
  lemma FileIsGood(s: State, initial: File)
    requires TablesOk(s) && WritesOk(s, initial) && GoodFile(initial, s.returned, s.nextId)
    ensures GoodFile(s.file, s.returned, s.nextId)
  {
  }

  lemma ActionKeepsCore(size: seq<Row> -> nat, s: State, e: Event)
    requires Core(s) && (e.StartAction? || e.ReportPhase? || e.EmitOutput? || e.ActionReturns? || e.ActionThrows?)
    ensures Core(Step(size, s, e))
  {
    match e
    case StartAction(call, error) => if call in s.calls && s.calls[call].stage.Starting? { StartKeepsCore(s, call, error); }
    case ReportPhase(call, phase, now) => if IsActing(s, call) { OpKeepsCore(s, call, Report(phase, now)); }
    case EmitOutput(call, chunk) => if IsActing(s, call) { OpKeepsCore(s, call, Emit(chunk)); }
    case ActionReturns(call, now) => if IsActing(s, call) { ReturnKeepsCore(s, call, now); }
    case ActionThrows(call, error) => if IsActing(s, call) { EndKeepsCore(s, call, Err(error)); }
  }

  lemma StepKeepsCore(size: seq<Row> -> nat, s: State, e: Event)
    requires Core(s) && GoodFile(s.file, s.returned, s.nextId)
    ensures Core(Step(size, s, e))
  {
    match e
    case Reserve(call, stack, saved, expected) => ReserveKeepsCore(s, call, stack, saved, expected);
    case Load => if s.load == NotLoaded { LoadKeepsCore(s, size); }
    case Begin(call, now) =>
      if call in s.calls && s.calls[call].stage.Loading? && s.load != NotLoaded { BeginKeepsCore(s, call, now); }
    case WriteTemp(ok) => WriterKeepsCore(s, ok);
    case Rename(ok) => WriterKeepsCore(s, ok);
    case Release(call) => if call in s.calls { LeaveKeepsCore(s, call); }
    case Crash => CrashKeepsCore(s);
    case _ => ActionKeepsCore(size, s, e);
  }

  // ------------------------------------------------------------------ every run

  lemma BeginGrows(s: State, call: CallId, now: Time)
    requires call in s.calls
    ensures DoBegin(s, call, now).returned == s.returned && s.nextId <= DoBegin(s, call, now).nextId
  {
  }

  lemma StepGrows(size: seq<Row> -> nat, s: State, e: Event)
    ensures s.returned <= Step(size, s, e).returned && s.nextId <= Step(size, s, e).nextId
  {
    if e.Begin? && e.call in s.calls {
      BeginGrows(s, e.call, e.now);
    }
  }

  /** From any journal file whose completed rows are known to have returned. */
  lemma {:induction false} RunKeepsCore(size: seq<Row> -> nat, file: File, nextId: RunId, past: set<RunId>, events: seq<Event>)
    requires GoodFile(file, past, nextId)
    ensures var s := Run(size, Boot(file, nextId, past), events);
            Core(s) && GoodFile(file, s.returned, s.nextId) && GoodFile(s.file, s.returned, s.nextId)
  {
    var s := Run(size, Boot(file, nextId, past), events);
    if events == [] {
    } else {
      var front, e := events[..|events| - 1], events[|events| - 1];
      var before := Run(size, Boot(file, nextId, past), front);
      RunKeepsCore(size, file, nextId, past, front);
      StepKeepsCore(size, before, e);
      StepGrows(size, before, e);
    }
    RunKeepsWrites(size, file, nextId, past, events);
    FileIsGood(s, file);
  }
}
