/** The bound of 100 rows, and exactly when admission of a run breaks it
    (backend/deployment-progress.ts, lines 126-148, 183-185). */
module DeploymentCapacity {
  import opened Common
  import opened DeploymentRows
  import opened DeploymentJournal
  import opened DeploymentInvariants

  /** The run whose action is in progress on the stack. */
  ghost predicate Owned(s: State, stack: StackName) {
    exists k :: k in s.calls && s.calls[k].stack == stack && (s.calls[k].stage.Starting? || s.calls[k].stage.Acting?)
  }

  ghost predicate Tidy(s: State) {
    && |s.records| <= MAX_RECORDS
    && (forall k | 0 <= k < |s.snapshots| :: |s.snapshots[k]| <= MAX_RECORDS)
    && forall row | row in s.records && row.state == Running :: Owned(s, row.stack)
  }

  lemma OwnersStay(s: State, t: State, stack: StackName)
    requires Owned(s, stack)
    requires forall k | k in s.calls && s.calls[k].stack == stack && (s.calls[k].stage.Starting? || s.calls[k].stage.Acting?) ::
               k in t.calls && t.calls[k] == s.calls[k]
    ensures Owned(t, stack)
  {
    var k :| k in s.calls && s.calls[k].stack == stack && (s.calls[k].stage.Starting? || s.calls[k].stage.Acting?);
    assert k in t.calls && t.calls[k] == s.calls[k];
  }

  /** A call that owns no running row leaves. */
  lemma LeaveKeepsTidy(s: State, call: CallId)
    requires Tidy(s) && call in s.calls && (s.calls[call].stage.Loading? || s.calls[call].stage.Ending?)
    ensures Tidy(Leave(s, call))
  {
    forall row | row in s.records && row.state == Running ensures Owned(Leave(s, call), row.stack) {
      OwnersStay(s, Leave(s, call), row.stack);
    }
  }

  lemma LoadKeepsTidy(s: State, size: seq<Row> -> nat)
    requires Tidy(s)
    ensures Tidy(DoLoad(s, size))
  {
    if s.file.Rows? && size(s.file.rows) <= MAX_FILE {
      var t := DoLoad(s, size);
      LoadIsWellFormed(Last100(s.file.rows));
      forall row | row in t.records ensures row.state != Running {
        var r :| r in Last100(s.file.rows) && row == Reopened(r);
      }
    }
  }

  /** More than 100 rows would belong to active stacks once the run of `c` had its row. */
  predicate Overflows(s: State, c: Call) {
    |StacksOf(Delete(s.records, c.stack) + [NewRow(s.nextId, c.stack, c.saved)]) * s.active| > MAX_RECORDS
  }

  lemma AdmissionFailsExactly(s: State, c: Call)
    requires Core(s)
    ensures Admit(s, c).1 <==> !Overflows(s, c)
  {
    var rows := Delete(s.records, c.stack) + [NewRow(s.nextId, c.stack, c.saved)];
    assert DistinctStacks(rows) by {
      forall i | 0 <= i < |rows| - 1 ensures rows[i].stack != c.stack {
        assert rows[i] in Delete(s.records, c.stack);
      }
    }
    EvictionFailsExactly(rows, s.active);
  }

  /** With at most 100 active stacks there is always room for the new row. */
  lemma AdmissionSucceeds(s: State, call: CallId)
    requires Core(s) && call in s.calls && |s.active| <= MAX_RECORDS
    ensures Admit(s, s.calls[call]).1
  {
    var c := s.calls[call];
    AdmissionFailsExactly(s, c);
    SubsetCardinality(StacksOf(Delete(s.records, c.stack) + [NewRow(s.nextId, c.stack, c.saved)]) * s.active, s.active);
  }

  /** A running row that no run owns, in a table over its bound. */
  predicate Orphaned(s: State, row: Row) {
    row in s.records && row.state == Running && row.stack !in s.active && |s.records| > MAX_RECORDS
  }

  /** A run that finds no room leaves its row behind as running, and only such a run does. */
  lemma BeginOrphansExactly(s: State, call: CallId, now: Time)
    requires Core(s) && call in s.calls && s.calls[call].stage.Loading? && s.load == Loaded && !Refused(s, s.calls[call])
    ensures var c := s.calls[call];
            Orphaned(DoBegin(s, call, now), NewRow(s.nextId, c.stack, c.saved)) <==> Overflows(s, c)
  {
    var c := s.calls[call];
    AdmissionFailsExactly(s, c);
    assert c.stack in s.active;
    AdmitKeepsTable(s, c, Admit(s, c).0.records);
  }

  lemma EnterKeepsTidy(s: State, t: State, call: CallId, now: Time)
    requires Core(s) && Tidy(s) && call in s.calls && s.calls[call].stage.Loading? && s.load == Loaded
    requires t == Admit(s, s.calls[call]).0 && |t.records| <= MAX_RECORDS
    ensures Tidy(Enter(t, call, s.nextId, now))
  {
    assert s.calls[call].stack in s.active;
    AdmitKeepsTable(s, s.calls[call], t.records);
    EnteredIsTidy(s, t, call, now);
  }

  lemma EnteredIsTidy(s: State, t: State, call: CallId, now: Time)
    requires Tidy(s) && call in s.calls && s.calls[call].stage.Loading? && |t.records| <= MAX_RECORDS
    requires t == s.(records := t.records, nextId := t.nextId)
    requires forall r | r in t.records :: r.stack == s.calls[call].stack || r in s.records
    ensures Tidy(Enter(t, call, s.nextId, now))
  {
    var c := s.calls[call];
    var u := Enter(t, call, s.nextId, now);
    var row := Apply(NewRow(s.nextId, c.stack, c.saved), Report(NewRow(s.nextId, c.stack, c.saved).phase, now));
    ReplaceMembers(t.records, row);
    assert u.calls[call].stage.Starting? && u.calls[call].stack == c.stack;
    forall r | r in u.records && r.state == Running ensures Owned(u, r.stack) {
      if r.stack != c.stack {
        OwnersStay(s, u, r.stack);
      }
    }
  }

  lemma BeginKeepsTidyExactly(s: State, call: CallId, now: Time)
    requires Core(s) && Tidy(s) && call in s.calls && s.calls[call].stage.Loading? && s.load != NotLoaded
    ensures Tidy(DoBegin(s, call, now)) <==> Refused(s, s.calls[call]) || !Overflows(s, s.calls[call])
  {
    if Refused(s, s.calls[call]) {
      LeaveKeepsTidy(s, call);
    } else {
      AdmissionFailsExactly(s, s.calls[call]);
      if Admit(s, s.calls[call]).1 {
        EnterKeepsTidy(s, Admit(s, s.calls[call]).0, call, now);
      } else {
        BeginOrphansExactly(s, call, now);
      }
    }
  }

  /** The row of a call and the call itself change; the call owns the row while it is running. */
  lemma UpdateKeepsTidy(s: State, t: State, call: CallId, row: Row)
    requires Tidy(s) && call in s.calls && s.calls[call].stack == row.stack
    requires t.records == Replace(s.records, row) && t.calls.Keys == s.calls.Keys && t.calls[call].stack == row.stack
    requires forall k | k in s.calls && k != call :: t.calls[k] == s.calls[k]
    requires t.snapshots == s.snapshots || t.snapshots == s.snapshots + [Snapshot(t.records)]
    requires row.state == Running ==> t.calls[call].stage.Starting? || t.calls[call].stage.Acting?
    ensures Tidy(t)
  {
    ReplaceMembers(s.records, row);
    forall r | r in t.records && r.state == Running ensures Owned(t, r.stack) {
      if r.stack != row.stack {
        OwnersStay(s, t, r.stack);
      }
    }
  }

  lemma OpKeepsTidy(s: State, call: CallId, op: Op)
    requires Tidy(s) && DistinctStacks(s.records) && IsActing(s, call) && CallRow(s.records, s.calls[call])
    ensures Tidy(DoOp(s, call, op))
  {
    var live := LiveRow(s.calls[call]);
    LiveRowFacts(s.calls[call]);
    FindUnique(s.records, live);
    OpUpdates(s, call, op, live);
    UpdateKeepsTidy(s, DoOp(s, call, op), call, Apply(live, op));
  }

  lemma EndKeepsTidy(s: State, call: CallId, id: RunId, outcome: Result<Time, string>)
    requires Tidy(s) && DistinctStacks(s.records)
    requires call in s.calls && CallRow(s.records, s.calls[call]) && (s.calls[call].stage.Starting? || s.calls[call].stage.Acting?)
    ensures Tidy(DoEnd(s, call, id, outcome))
  {
    var live := LiveRow(s.calls[call]);
    LiveRowFacts(s.calls[call]);
    FindUnique(s.records, live);
    EndUpdates(s, call, id, outcome, live);
    UpdateKeepsTidy(s, DoEnd(s, call, id, outcome), call, Ended(live, outcome));
  }

  lemma StartKeepsTidy(s: State, call: CallId, error: string)
    requires Core(s) && Tidy(s) && call in s.calls && s.calls[call].stage.Starting?
    ensures Tidy(DoStart(s, call, error))
  {
    var c := s.calls[call];
    if c.stage.write in s.outcomes {
      if s.outcomes[c.stage.write] {
        var t := DoStart(s, call, error);
        forall row | row in s.records && row.state == Running ensures Owned(t, row.stack) {
          if row.stack == c.stack {
            assert t.calls[call].stage.Acting?;
          } else {
            OwnersStay(s, t, row.stack);
          }
        }
      } else {
        EndKeepsTidy(s, call, c.stage.id, Err(error));
      }
    }
  }

  lemma ReserveKeepsTidy(s: State, call: CallId, stack: StackName, saved: bool, expected: Option<RunId>)
    requires Tidy(s)
    ensures Tidy(DoReserve(s, call, stack, saved, expected))
  {
    forall row | row in s.records && row.state == Running ensures Owned(DoReserve(s, call, stack, saved, expected), row.stack) {
      OwnersStay(s, DoReserve(s, call, stack, saved, expected), row.stack);
    }
  }

  lemma WriterKeepsTidy(s: State, ok: bool)
    requires Tidy(s)
    ensures Tidy(DoWriteTemp(s, ok)) && Tidy(DoRename(s, ok))
  {
    forall row | row in s.records && row.state == Running
      ensures Owned(DoWriteTemp(s, ok), row.stack) && Owned(DoRename(s, ok), row.stack)
    {
      OwnersStay(s, DoWriteTemp(s, ok), row.stack);
      OwnersStay(s, DoRename(s, ok), row.stack);
    }
  }

  /** The event admits a run for which there is no room. */
  predicate BeginOverflows(s: State, e: Event) {
    && e.Begin? && e.call in s.calls && s.calls[e.call].stage.Loading? && s.load != NotLoaded
    && !Refused(s, s.calls[e.call]) && Overflows(s, s.calls[e.call])
  }

  lemma RowUpdateKeepsTidy(size: seq<Row> -> nat, s: State, e: Event)
    requires Core(s) && Tidy(s)
    requires e.StartAction? || e.ReportPhase? || e.EmitOutput? || e.ActionReturns? || e.ActionThrows?
    ensures Tidy(Step(size, s, e))
  {
    match e
    case StartAction(call, error) => if call in s.calls && s.calls[call].stage.Starting? { StartKeepsTidy(s, call, error); }
    case ReportPhase(call, phase, now) => if IsActing(s, call) { OpKeepsTidy(s, call, Report(phase, now)); }
    case EmitOutput(call, chunk) => if IsActing(s, call) { OpKeepsTidy(s, call, Emit(chunk)); }
    case ActionReturns(call, now) => if IsActing(s, call) { ReturnKeepsTidy(s, call, now); }
    case ActionThrows(call, error) => if IsActing(s, call) { EndKeepsTidy(s, call, s.calls[call].stage.id, Err(error)); }
  }

  lemma StepKeepsTidyExactly(size: seq<Row> -> nat, s: State, e: Event)
    requires Core(s) && Tidy(s)
    ensures Tidy(Step(size, s, e)) <==> !BeginOverflows(s, e)
  {
    match e
    case Reserve(call, stack, saved, expected) => ReserveKeepsTidy(s, call, stack, saved, expected);
    case Load => LoadKeepsTidy(s, size);
    case Begin(call, now) =>
      if call in s.calls && s.calls[call].stage.Loading? && s.load != NotLoaded { BeginKeepsTidyExactly(s, call, now); }
    case WriteTemp(ok) => WriterKeepsTidy(s, ok);
    case Rename(ok) => WriterKeepsTidy(s, ok);
    case Release(call) => if call in s.calls && s.calls[call].stage.Ending? { LeaveKeepsTidy(s, call); }
    case Crash =>
    case _ => RowUpdateKeepsTidy(size, s, e);
  }

  lemma ReturnKeepsTidy(s: State, call: CallId, now: Time)
    requires Core(s) && Tidy(s) && IsActing(s, call)
    ensures Tidy(DoReturn(s, call, now))
  {
    var id := s.calls[call].stage.id;
    var u := s.(returned := s.returned + {id});
    forall row | row in s.records && row.state == Running ensures Owned(u, row.stack) {
      OwnersStay(s, u, row.stack);
    }
    EndKeepsTidy(u, call, id, Ok(now));
  }

  /** Before the first event and after each of them. */
  ghost predicate AlwaysTidy(size: seq<Row> -> nat, s: State, events: seq<Event>) {
    && Tidy(Run(size, s, events))
    && (events == [] || AlwaysTidy(size, s, events[..|events| - 1]))
  }

  /** Every run that an event admits finds room. */
  ghost predicate AlwaysRoom(size: seq<Row> -> nat, s: State, events: seq<Event>) {
    events == [] ||
    var front, last := events[..|events| - 1], events[|events| - 1];
    AlwaysRoom(size, s, front) && !BeginOverflows(Run(size, s, front), last)
  }

  /** Before each of the events at most 100 stacks are active. */
  ghost predicate AlwaysFew(size: seq<Row> -> nat, s: State, events: seq<Event>) {
    events == [] ||
    var front := events[..|events| - 1];
    AlwaysFew(size, s, front) && |Run(size, s, front).active| <= MAX_RECORDS
  }

  lemma {:induction false} AlwaysTidyMeans(size: seq<Row> -> nat, s: State, events: seq<Event>, n: nat)
    requires AlwaysTidy(size, s, events) && n <= |events|
    ensures Tidy(Run(size, s, events[..n]))
  {
    if n == |events| {
      assert events[..n] == events;
    } else {
      assert events[..|events| - 1][..n] == events[..n];
      AlwaysTidyMeans(size, s, events[..|events| - 1], n);
    }
  }

  lemma TidyNext(size: seq<Row> -> nat, s: State, t: State, e: Event)
    requires Core(s) && Tidy(s) && t == Step(size, s, e)
    ensures Tidy(t) <==> !BeginOverflows(s, e)
  {
    StepKeepsTidyExactly(size, s, e);
  }

  /** The history stays bounded, with every running row owned by a run in progress, exactly as long
      as every run that is admitted finds room. */
  lemma {:induction false} HistoryIsBoundedExactly(size: seq<Row> -> nat, file: File, nextId: RunId, past: set<RunId>, events: seq<Event>)
    requires GoodFile(file, past, nextId)
    ensures var s := Boot(file, nextId, past); AlwaysTidy(size, s, events) <==> AlwaysRoom(size, s, events)
  {
    var s := Boot(file, nextId, past);
    if events == [] {
    } else {
      var front := events[..|events| - 1];
      HistoryIsBoundedExactly(size, file, nextId, past, front);
      RunKeepsCore(size, file, nextId, past, front);
      if AlwaysTidy(size, s, front) {
        TidyNext(size, Run(size, s, front), Run(size, s, events), events[|events| - 1]);
      }
    }
  }

  /** While at most 100 runs are active at once, the history and every snapshot have at most 100
      rows and each running row belongs to a run in progress. */
  lemma {:induction false} HistoryIsBounded(size: seq<Row> -> nat, file: File, nextId: RunId, past: set<RunId>, events: seq<Event>)
    requires GoodFile(file, past, nextId) && AlwaysFew(size, Boot(file, nextId, past), events)
    ensures AlwaysTidy(size, Boot(file, nextId, past), events)
  {
    var s := Boot(file, nextId, past);
    if events == [] {
    } else {
      var front, last := events[..|events| - 1], events[|events| - 1];
      HistoryIsBounded(size, file, nextId, past, front);
      RunKeepsCore(size, file, nextId, past, front);
      RoomForOneMore(Run(size, s, front), last);
      TidyNext(size, Run(size, s, front), Run(size, s, events), last);
    }
  }

  lemma RoomForOneMore(s: State, e: Event)
    requires Core(s) && |s.active| <= MAX_RECORDS
    ensures !BeginOverflows(s, e)
  {
    if e.Begin? && e.call in s.calls {
      AdmissionSucceeds(s, e.call);
      AdmissionFailsExactly(s, s.calls[e.call]);
    }
  }

  // -------------------------------------------------------------- a run that overflows

  function StackNo(i: nat): (r: StackName)
    ensures |r| == i + 1
  {
    seq(i + 1, _ => 'a')
  }

  /** `n` runs on different stacks, all in progress. */
  ghost predicate FilledTo(s: State, n: nat) {
    && s.load == Loaded && s.nextId == n && |s.records| == n && DistinctStacks(s.records)
    && (forall row | row in s.records :: row.stack in s.active)
    && (forall x | x in s.active :: |x| <= n)
    && (forall k | k in s.calls :: k < n)
  }

  /** After the reservation of the next run. */
  ghost predicate Reserved(s: State, n: nat) {
    && s.load == Loaded && s.nextId == n && |s.records| == n && DistinctStacks(s.records)
    && n in s.calls && s.calls[n] == Call(StackNo(n), false, None, Loading, [])
    && StackNo(n) in s.active
    && (forall row | row in s.records :: row.stack in s.active && row.stack != StackNo(n))
    && (forall x | x in s.active :: |x| <= n + 1)
    && (forall k | k in s.calls :: k <= n)
  }

  lemma ReserveNext(s: State, n: nat)
    requires FilledTo(s, n) && n <= MAX_RECORDS
    ensures Reserved(DoReserve(s, n, StackNo(n), false, None), n)
  {
  }

  lemma RowsOfNext(s: State, n: nat)
    requires Reserved(s, n)
    ensures Delete(s.records, StackNo(n)) == s.records
    ensures DistinctStacks(s.records + [NewRow(n, StackNo(n), false)])
  {
    forall i | 0 <= i < |s.records| ensures s.records[i].stack != StackNo(n) {
      assert s.records[i] in s.records;
    }
    NothingToDelete(s.records, StackNo(n));
  }

  lemma BeginNext(s: State, n: nat)
    requires Reserved(s, n) && n < MAX_RECORDS
    ensures FilledTo(DoBegin(s, n, 0), n + 1)
  {
    var row := NewRow(n, StackNo(n), false);
    var rows := s.records + [row];
    RowsOfNext(s, n);
    assert Evict(rows, s.active) == (rows, true);
    assert DoBegin(s, n, 0) == Enter(s.(records := rows, nextId := n + 1), n, n, 0);
    ReplaceMembers(rows, Apply(row, Report(row.phase, 0)));
  }

  lemma NoRoomForTheNext(s: State)
    requires Reserved(s, MAX_RECORDS)
    ensures Overflows(s, s.calls[MAX_RECORDS])
  {
    var rows := s.records + [NewRow(s.nextId, StackNo(MAX_RECORDS), false)];
    RowsOfNext(s, MAX_RECORDS);
    StackCount(rows);
    assert StacksOf(rows) * s.active == StacksOf(rows);
  }

  // The same as a run.

  lemma RunOneMore(size: seq<Row> -> nat, s: State, events: seq<Event>, e: Event)
    ensures Run(size, s, events + [e]) == Step(size, Run(size, s, events), e)
  {
    assert (events + [e])[..|events|] == events;
  }

  lemma NextTwoSteps(size: seq<Row> -> nat, s: State, n: nat)
    requires Reserved(DoReserve(s, n, StackNo(n), false, None), n)
    ensures Step(size, Step(size, s, Reserve(n, StackNo(n), false, None)), Begin(n, 0)) ==
            DoBegin(DoReserve(s, n, StackNo(n), false, None), n, 0)
  {
  }

  function Fill(n: nat): seq<Event> {
    if n == 0 then [Load] else Fill(n - 1) + [Reserve(n - 1, StackNo(n - 1), false, None)] + [Begin(n - 1, 0)]
  }

  lemma FillNext(size: seq<Row> -> nat, s: State, t: State, n: nat)
    requires s == Run(size, Boot(Missing, 0, {}), Fill(n)) && t == Run(size, Boot(Missing, 0, {}), Fill(n + 1))
    requires Reserved(DoReserve(s, n, StackNo(n), false, None), n)
    ensures t == DoBegin(DoReserve(s, n, StackNo(n), false, None), n, 0)
  {
    var reserved := Fill(n) + [Reserve(n, StackNo(n), false, None)];
    RunOneMore(size, Boot(Missing, 0, {}), Fill(n), Reserve(n, StackNo(n), false, None));
    RunOneMore(size, Boot(Missing, 0, {}), reserved, Begin(n, 0));
    NextTwoSteps(size, s, n);
  }

  lemma NextFills(s: State, n: nat)
    requires FilledTo(s, n) && n < MAX_RECORDS
    ensures Reserved(DoReserve(s, n, StackNo(n), false, None), n)
    ensures FilledTo(DoBegin(DoReserve(s, n, StackNo(n), false, None), n, 0), n + 1)
  {
    ReserveNext(s, n);
    BeginNext(DoReserve(s, n, StackNo(n), false, None), n);
  }

  lemma FillNextFills(size: seq<Row> -> nat, s: State, t: State, n: nat)
    requires s == Run(size, Boot(Missing, 0, {}), Fill(n)) && t == Run(size, Boot(Missing, 0, {}), Fill(n + 1))
    requires FilledTo(s, n) && n < MAX_RECORDS
    ensures FilledTo(t, n + 1)
  {
    NextFills(s, n);
    FillNext(size, s, t, n);
  }

  lemma LoadedIsFilled(size: seq<Row> -> nat)
    ensures FilledTo(Run(size, Boot(Missing, 0, {}), Fill(0)), 0)
  {
    assert [Load][..0] == [];
  }

  lemma {:induction false} Filled(size: seq<Row> -> nat, n: nat)
    requires n <= MAX_RECORDS
    ensures FilledTo(Run(size, Boot(Missing, 0, {}), Fill(n)), n)
  {
    if n == 0 {
      LoadedIsFilled(size);
    } else {
      Filled(size, n - 1);
      FillNextFills(size, Run(size, Boot(Missing, 0, {}), Fill(n - 1)), Run(size, Boot(Missing, 0, {}), Fill(n)), n - 1);
    }
  }

  lemma OrphanAfter(s: State, n: nat)
    requires Core(s) && Reserved(s, n) && n == MAX_RECORDS
    ensures Orphaned(DoBegin(s, n, 0), NewRow(n, StackNo(n), false))
  {
    NoRoomForTheNext(s);
    BeginOrphansExactly(s, n, 0);
  }

  lemma LastRunIsReserved(size: seq<Row> -> nat, s: State, n: nat)
    requires n <= MAX_RECORDS && s == Run(size, Boot(Missing, 0, {}), Fill(n))
    ensures Core(DoReserve(s, n, StackNo(n), false, None)) && Reserved(DoReserve(s, n, StackNo(n), false, None), n)
  {
    Filled(size, n);
    ReserveNext(s, n);
    RunKeepsCore(size, Missing, 0, {}, Fill(n));
    ReserveKeepsCore(s, n, StackNo(n), false, None);
  }

  lemma NextRunIsOrphaned(size: seq<Row> -> nat, n: nat)
    requires n == MAX_RECORDS
    ensures Orphaned(Run(size, Boot(Missing, 0, {}), Fill(n + 1)), NewRow(n, StackNo(n), false))
  {
    var s := Run(size, Boot(Missing, 0, {}), Fill(n));
    LastRunIsReserved(size, s, n);
    OrphanAfter(DoReserve(s, n, StackNo(n), false, None), n);
    FillNext(size, s, Run(size, Boot(Missing, 0, {}), Fill(n + 1)), n);
  }

  /** From an empty history: with a hundred runs in progress the next one finds no room, and its row
      stays behind as running. */
  lemma HundredAndFirstRunIsOrphaned(size: seq<Row> -> nat)
    ensures exists events, row :: Orphaned(Run(size, Boot(Missing, 0, {}), events), row)
  {
    var n := MAX_RECORDS;
    NextRunIsOrphaned(size, n);
  }
}
