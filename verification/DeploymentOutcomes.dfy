/** Finished outcomes are final, in memory and, once written, across crashes
    (backend/deployment-progress.ts, lines 58-92, 138-182). */
module DeploymentOutcomes {
  import opened Common
  import opened DeploymentRows
  import opened DeploymentJournal
  import opened DeploymentInvariants
  import opened DeploymentRetries

  // ---------------------------------------------------------------- in memory

  /** The finished row is still there as it was, or no row of that run is left. */
  ghost predicate FrozenOrGone(rows: seq<Row>, row: Row) {
    row in rows || Lacks(rows, row.stack, row.id)
  }

  /** The row of a run in progress is not the finished one, so updating it leaves that alone. */
  lemma UpdateKeepsFinished(s: State, c: Call, updated: Row, row: Row)
    requires DistinctStacks(s.records) && row in s.records && row.state != Running
    requires (c.stage.Starting? || c.stage.Acting?) && LiveRow(c) in s.records && updated.stack == c.stack
    ensures row in Replace(s.records, updated)
  {
    LiveRowFacts(c);
    FindUnique(s.records, row);
    FindUnique(s.records, LiveRow(c));
    ReplaceMembers(s.records, updated);
  }

  lemma OpKeepsFinished(s: State, call: CallId, op: Op, row: Row)
    requires Core(s) && IsActing(s, call) && row in s.records && row.state != Running
    ensures row in DoOp(s, call, op).records
  {
    var live := LiveRow(s.calls[call]);
    LiveRowFacts(s.calls[call]);
    FindUnique(s.records, live);
    OpUpdates(s, call, op, live);
    UpdateKeepsFinished(s, s.calls[call], Apply(live, op), row);
  }

  lemma EndKeepsFinished(s: State, call: CallId, outcome: Result<Time, string>, row: Row)
    requires DistinctStacks(s.records) && call in s.calls && CallRow(s.records, s.calls[call])
    requires (s.calls[call].stage.Starting? || s.calls[call].stage.Acting?) && row in s.records && row.state != Running
    ensures row in DoEnd(s, call, s.calls[call].stage.id, outcome).records
  {
    var live := LiveRow(s.calls[call]);
    LiveRowFacts(s.calls[call]);
    FindUnique(s.records, live);
    EndUpdates(s, call, s.calls[call].stage.id, outcome, live);
    UpdateKeepsFinished(s, s.calls[call], Ended(live, outcome), row);
  }

  lemma BeginKeepsFinished(s: State, call: CallId, now: Time, row: Row)
    requires Core(s) && call in s.calls && s.calls[call].stage.Loading? && s.load == Loaded && row in s.records
    ensures FrozenOrGone(DoBegin(s, call, now).records, row)
  {
    var c := s.calls[call];
    if !Refused(s, c) {
      var t := Admit(s, c).0;
      assert c.stack in s.active;
      AdmitKeepsTable(s, c, t.records);
      FindUnique(s.records, row);
      AdmittedFrozenOrGone(s, c, t.records, row);
      var admitted := NewRow(s.nextId, c.stack, c.saved);
      ReplaceMembers(t.records, Apply(admitted, Report(admitted.phase, now)));
    }
  }

  lemma AdmittedFrozenOrGone(s: State, c: Call, kept: seq<Row>, row: Row)
    requires GoodTable(s.records, s.returned, s.nextId) && row in s.records
    requires forall r | r in kept :: r == NewRow(s.nextId, c.stack, c.saved) || (r in s.records && r.stack != c.stack)
    ensures FrozenOrGone(kept, row)
  {
    forall r | r in kept && r.stack == row.stack && r.id == row.id ensures r == row {
      if r in s.records {
        FindUnique(s.records, r);
        FindUnique(s.records, row);
      }
    }
  }

  /** Events that are not part of an action leave the rows alone, or lose them all. */
  lemma QuietKeepsRows(size: seq<Row> -> nat, s: State, e: Event)
    requires e.Reserve? || e.WriteTemp? || e.Rename? || e.Release? || e.Crash?
    ensures var t := Step(size, s, e);
            t.nextId == s.nextId && t.snapshots == s.snapshots && (t.records == s.records || t.records == [])
  {
    match e
    case Reserve(call, stack, saved, expected) =>
    case WriteTemp(ok) =>
    case Rename(ok) =>
    case Release(call) =>
    case Crash =>
  }

  lemma ActionKeepsFinished(size: seq<Row> -> nat, s: State, e: Event, row: Row)
    requires Core(s) && row in s.records && row.state != Running
    requires e.ReportPhase? || e.EmitOutput? || e.StartAction? || e.ActionThrows? || e.ActionReturns?
    ensures row in Step(size, s, e).records
  {
    match e
    case ReportPhase(call, phase, now) => if IsActing(s, call) { OpKeepsFinished(s, call, Report(phase, now), row); }
    case EmitOutput(call, chunk) => if IsActing(s, call) { OpKeepsFinished(s, call, Emit(chunk), row); }
    case StartAction(call, error) =>
      if call in s.calls && s.calls[call].stage.Starting? { EndKeepsFinished(s, call, Err(error), row); }
    case ActionThrows(call, error) => if IsActing(s, call) { EndKeepsFinished(s, call, Err(error), row); }
    case ActionReturns(call, now) =>
      if IsActing(s, call) { EndKeepsFinished(s.(returned := s.returned + {s.calls[call].stage.id}), call, Ok(now), row); }
  }

  /** In memory a finished outcome is never rewritten: any event leaves the row as it is or removes it. */
  lemma FinishedRowsAreFrozen(size: seq<Row> -> nat, s: State, e: Event, row: Row)
    requires Core(s) && row in s.records && row.state != Running
    ensures FrozenOrGone(Step(size, s, e).records, row)
  {
    match e
    case Begin(call, now) =>
      if call in s.calls && s.calls[call].stage.Loading? && s.load != NotLoaded {
        BeginKeepsFinished(s, call, now, row);
      }
    case Load =>
    case Reserve(_, _, _, _) => QuietKeepsRows(size, s, e);
    case WriteTemp(_) => QuietKeepsRows(size, s, e);
    case Rename(_) => QuietKeepsRows(size, s, e);
    case Release(_) => QuietKeepsRows(size, s, e);
    case Crash => QuietKeepsRows(size, s, e);
    case _ => ActionKeepsFinished(size, s, e, row);
  }

  // -------------------------------------------------------------- fresh identifiers

  lemma BeginIsFresh(s: State, call: CallId, now: Time)
    requires Core(s) && call in s.calls && s.calls[call].stage.Loading? && s.load == Loaded
    ensures OnlyFresh(s, DoBegin(s, call, now))
  {
    var c := s.calls[call];
    if !Refused(s, c) {
      assert c.stack in s.active;
      AdmitIsFresh(s, c);
      var (t, ok) := Admit(s, c);
      if ok {
        AdmitKeepsTable(s, c, t.records);
        var row := NewRow(s.nextId, c.stack, c.saved);
        UpdateIsFresh(t, DoBegin(s, call, now), Apply(row, Report(row.phase, now)));
      }
    }
  }

  lemma ActionIsFresh(size: seq<Row> -> nat, s: State, e: Event)
    requires e.ReportPhase? || e.EmitOutput? || e.StartAction? || e.ActionThrows? || e.ActionReturns?
    ensures OnlyFresh(s, Step(size, s, e))
  {
    match e
    case StartAction(call, error) =>
      if call in s.calls && s.calls[call].stage.Starting? { EndIsFresh(s, call, s.calls[call].stage.id, Err(error)); }
    case ReportPhase(call, phase, now) => if IsActing(s, call) { OpIsFresh(s, call, Report(phase, now)); }
    case EmitOutput(call, chunk) => if IsActing(s, call) { OpIsFresh(s, call, Emit(chunk)); }
    case ActionReturns(call, now) =>
      if IsActing(s, call) {
        EndIsFresh(s.(returned := s.returned + {s.calls[call].stage.id}), call, s.calls[call].stage.id, Ok(now));
      }
    case ActionThrows(call, error) => if IsActing(s, call) { EndIsFresh(s, call, s.calls[call].stage.id, Err(error)); }
  }

  /** Only loading brings a run back that the table did not show. */
  lemma StepIsFresh(size: seq<Row> -> nat, s: State, e: Event)
    requires Core(s) && !e.Load?
    ensures OnlyFresh(s, Step(size, s, e))
  {
    match e
    case Begin(call, now) =>
      if call in s.calls && s.calls[call].stage.Loading? && s.load != NotLoaded { BeginOrLeaveIsFresh(s, call, now); }
    case Reserve(_, _, _, _) => QuietKeepsRows(size, s, e);
    case WriteTemp(_) => QuietKeepsRows(size, s, e);
    case Rename(_) => QuietKeepsRows(size, s, e);
    case Release(_) => QuietKeepsRows(size, s, e);
    case Crash => QuietKeepsRows(size, s, e);
    case _ => ActionIsFresh(size, s, e);
  }

  lemma BeginOrLeaveIsFresh(s: State, call: CallId, now: Time)
    requires Core(s) && call in s.calls && s.calls[call].stage.Loading? && s.load != NotLoaded
    ensures OnlyFresh(s, DoBegin(s, call, now))
  {
    if s.load == Loaded {
      BeginIsFresh(s, call, now);
    }
  }

  // ------------------------------------------------------------- across crashes

  /** If the rows show that run at all, it is with that outcome, steps and saved flag. */
  ghost predicate ShowsOnly(rows: seq<Row>, row: Row) {
    forall r | r in rows && r.stack == row.stack && r.id == row.id :: Strip(r) == Strip(row)
  }

  ghost predicate ShownSince(s: State, w: nat, row: Row) {
    && row.id < s.nextId && ShowsOnly(s.records, row)
    && forall j | w <= j < |s.snapshots| :: ShowsOnly(s.snapshots[j], row)
  }

  /** The write has reached the journal file or still may. */
  predicate LiveWrite(s: State, w: nat) {
    w in s.landed || w in s.queue
  }

  ghost predicate Durable(s: State) {
    && (s.load == NotLoaded ==> s.queue == [])
    && forall w: nat, row | w < |s.snapshots| && LiveWrite(s, w) && row in s.snapshots[w] && row.state != Running ::
         ShownSince(s, w, row)
  }

  lemma SnapshotShows(rows: seq<Row>, row: Row)
    requires ShowsOnly(rows, row)
    ensures ShowsOnly(Snapshot(rows), row)
  {
    forall r | r in Snapshot(rows) && r.stack == row.stack && r.id == row.id ensures Strip(r) == Strip(row) {
      var i :| 0 <= i < |rows| && Snapshot(rows)[i] == r;
      assert rows[i] in rows;
    }
  }

  /** A new snapshot shows the finished rows of the table. */
  lemma NewSnapshotShows(rows: seq<Row>, row: Row)
    requires DistinctStacks(rows) && row in Snapshot(rows)
    ensures ShowsOnly(rows, row) && ShowsOnly(Snapshot(rows), row) && exists r :: r in rows && r.id == row.id
  {
    var i :| 0 <= i < |rows| && Snapshot(rows)[i] == row;
    assert rows[i] in rows;
    forall r | r in rows && r.stack == row.stack ensures r == rows[i] {
      FindUnique(rows, r);
      FindUnique(rows, rows[i]);
    }
    SnapshotShows(rows, row);
  }

  /** In a table with one row per stack a finished row is the only one of its run. */
  lemma FrozenShowsOnly(rows: seq<Row>, kept: Row, row: Row)
    requires DistinctStacks(rows) && FrozenOrGone(rows, kept)
    requires kept.stack == row.stack && kept.id == row.id && Strip(kept) == Strip(row)
    ensures ShowsOnly(rows, row)
  {
    forall x | x in rows && x.stack == row.stack && x.id == row.id ensures Strip(x) == Strip(row) {
      FindUnique(rows, x);
      if kept in rows {
        FindUnique(rows, kept);
      }
    }
  }

  lemma RecordsKeepShowing(size: seq<Row> -> nat, s: State, e: Event, row: Row)
    requires Core(s) && Core(Step(size, s, e)) && !e.Load?
    requires row.id < s.nextId && row.state != Running && ShowsOnly(s.records, row)
    ensures ShowsOnly(Step(size, s, e).records, row)
  {
    if Lacks(s.records, row.stack, row.id) {
      StepIsFresh(size, s, e);
    } else {
      var r :| r in s.records && r.stack == row.stack && r.id == row.id;
      FinishedRowsAreFrozen(size, s, e, r);
      FrozenShowsOnly(Step(size, s, e).records, r, row);
    }
  }

  /** A write that is alive afterwards was alive before, or is the one just queued. */
  ghost predicate NoLateWrites(s: State, t: State) {
    && (t.snapshots == s.snapshots || t.snapshots == s.snapshots + [Snapshot(t.records)])
    && forall w | LiveWrite(t, w) :: LiveWrite(s, w) || w == |s.snapshots|
  }

  lemma StepHasNoLateWrites(size: seq<Row> -> nat, s: State, e: Event)
    ensures NoLateWrites(s, Step(size, s, e))
  {
    if !e.WriteTemp? && !e.Rename? && !e.Crash? {
      StepIsMemoryStep(size, s, e);
    }
  }

  lemma StaysShown(size: seq<Row> -> nat, s: State, e: Event, w: nat, row: Row)
    requires Core(s) && Core(Step(size, s, e)) && !e.Load? && ShownSince(s, w, row) && row.state != Running
    ensures ShownSince(Step(size, s, e), w, row)
  {
    RecordsKeepShowing(size, s, e, row);
    StepHasNoLateWrites(size, s, e);
    StepGrows(size, s, e);
    StillShown(s, Step(size, s, e), w, row);
  }

  lemma StillShown(s: State, t: State, w: nat, row: Row)
    requires ShownSince(s, w, row) && ShowsOnly(t.records, row) && NoLateWrites(s, t) && s.nextId <= t.nextId
    ensures ShownSince(t, w, row)
  {
    SnapshotShows(t.records, row);
  }

  lemma StepKeepsDurable(size: seq<Row> -> nat, s: State, e: Event)
    requires Core(s) && Core(Step(size, s, e)) && Durable(s) && !e.Load?
    ensures Durable(Step(size, s, e))
  {
    var t := Step(size, s, e);
    StepHasNoLateWrites(size, s, e);
    QueueNeedsLoad(size, s, e);
    forall w: nat, row | w < |t.snapshots| && LiveWrite(t, w) && row in t.snapshots[w] && row.state != Running
      ensures ShownSince(t, w, row)
    {
      if w < |s.snapshots| {
        StaysShown(size, s, e, w, row);
      } else {
        NewSnapshotShows(t.records, row);
      }
    }
  }

  lemma BeginKeepsLoad(s: State, call: CallId, now: Time)
    requires call in s.calls
    ensures DoBegin(s, call, now).load == s.load
  {
  }

  lemma QueueNeedsLoad(size: seq<Row> -> nat, s: State, e: Event)
    requires CallsOk(s) && !e.Load? && (s.load == NotLoaded ==> s.queue == [])
    ensures var t := Step(size, s, e); t.load == NotLoaded ==> t.queue == []
  {
    match e
    case Begin(call, now) => if call in s.calls { BeginKeepsLoad(s, call, now); }
    case _ =>
  }

  /** The file is no older than any landed write, and loading keeps finished rows as they are. */
  lemma LoadedShows(s: State, size: seq<Row> -> nat, initial: File, w: nat, row: Row)
    requires WritesOk(s, initial) && w in s.landed && ShownSince(s, w, row) && row.state != Running && s.load == NotLoaded
    ensures s.file.Rows? ==> ShowsOnly(s.file.rows, row)
    ensures ShowsOnly(DoLoad(s, size).records, row)
  {
    var i :| 0 <= i < |s.landed| && s.landed[i] == w;
    var last := s.landed[|s.landed| - 1];
    assert w <= last < |s.snapshots| && ShowsOnly(s.snapshots[last], row);
    var rows := Last100(s.file.rows);
    LoadIsWellFormed(rows);
    forall r | r in LoadRows(rows) && r.stack == row.stack && r.id == row.id ensures Strip(r) == Strip(row) {
      var x :| x in rows && r == Reopened(x);
      assert x in s.file.rows;
    }
  }

  lemma LoadKeepsDurable(size: seq<Row> -> nat, s: State, initial: File)
    requires Core(s) && Durable(s) && WritesOk(s, initial) && s.load == NotLoaded
    ensures Durable(DoLoad(s, size))
  {
    var t := DoLoad(s, size);
    assert t == s.(load := t.load, records := t.records);
    forall w: nat, row | w < |t.snapshots| && LiveWrite(t, w) && row in t.snapshots[w] && row.state != Running
      ensures ShownSince(t, w, row)
    {
      assert LiveWrite(s, w);
      LoadedShows(s, size, initial, w, row);
    }
  }

  lemma {:induction false} RunKeepsDurable(size: seq<Row> -> nat, file: File, nextId: RunId, past: set<RunId>, events: seq<Event>)
    requires GoodFile(file, past, nextId)
    ensures Durable(Run(size, Boot(file, nextId, past), events))
  {
    if events == [] {
    } else {
      var front, e := events[..|events| - 1], events[|events| - 1];
      var s := Run(size, Boot(file, nextId, past), front);
      RunKeepsDurable(size, file, nextId, past, front);
      RunKeepsCore(size, file, nextId, past, front);
      RunKeepsCore(size, file, nextId, past, events);
      RunKeepsWrites(size, file, nextId, past, front);
      if e.Load? {
        if s.load == NotLoaded {
          LoadKeepsDurable(size, s, file);
        }
      } else {
        StepKeepsDurable(size, s, e);
      }
    }
  }

  // ---------------------------------------------------------------- main results

  /** Landed writes stay landed and snapshots are never taken back. */
  lemma {:induction false} HistoryGrows(size: seq<Row> -> nat, s: State, more: seq<Event>)
    ensures var t := Run(size, s, more); s.snapshots <= t.snapshots && forall w | w in s.landed :: w in t.landed
  {
    if more == [] {
    } else {
      var front := more[..|more| - 1];
      HistoryGrows(size, s, front);
      StepHasNoLateWrites(size, Run(size, s, front), more[|more| - 1]);
      LandedStay(size, Run(size, s, front), more[|more| - 1]);
    }
  }

  lemma LandedStay(size: seq<Row> -> nat, s: State, e: Event)
    ensures forall w | w in s.landed :: w in Step(size, s, e).landed
  {
    if !e.WriteTemp? && !e.Rename? && !e.Crash? {
      StepIsMemoryStep(size, s, e);
    }
  }

  lemma {:induction false} RunOn(size: seq<Row> -> nat, s: State, events: seq<Event>, more: seq<Event>)
    ensures Run(size, s, events + more) == Run(size, Run(size, s, events), more)
  {
    if more == [] {
      assert events + more == events;
    } else {
      assert (events + more)[..|events + more| - 1] == events + more[..|more| - 1];
      RunOn(size, s, events, more[..|more| - 1]);
    }
  }

  /** Table, journal file and snapshots from write `w` on show that run with that outcome or not at all. */
  ghost predicate ShownEverywhere(s: State, w: nat, row: Row) {
    && ShowsOnly(s.records, row) && (s.file.Rows? ==> ShowsOnly(s.file.rows, row))
    && forall j | w <= j < |s.snapshots| :: ShowsOnly(s.snapshots[j], row)
  }

  /** Once a snapshot with a finished run has reached the journal file, nothing later, after any events
      including crashes, shows that run with another outcome. */
  lemma WrittenOutcomeIsFinal(size: seq<Row> -> nat, file: File, nextId: RunId, past: set<RunId>, events: seq<Event>,
                              more: seq<Event>, w: nat, row: Row)
    requires GoodFile(file, past, nextId)
    requires var s := Run(size, Boot(file, nextId, past), events);
             w in s.landed && w < |s.snapshots| && row in s.snapshots[w] && row.state != Running
    ensures ShownEverywhere(Run(size, Boot(file, nextId, past), events + more), w, row)
  {
    var s, t := Run(size, Boot(file, nextId, past), events), Run(size, Boot(file, nextId, past), events + more);
    RunOn(size, Boot(file, nextId, past), events, more);
    HistoryGrows(size, s, more);
    RunKeepsDurable(size, file, nextId, past, events + more);
    RunKeepsWrites(size, file, nextId, past, events + more);
    assert row in t.snapshots[w] && LiveWrite(t, w);
    FileShows(t, file, w, row);
  }

  lemma FileShows(s: State, initial: File, w: nat, row: Row)
    requires WritesOk(s, initial) && w in s.landed && ShownSince(s, w, row)
    ensures s.file.Rows? ==> ShowsOnly(s.file.rows, row)
  {
    var i :| 0 <= i < |s.landed| && s.landed[i] == w;
    var last := s.landed[|s.landed| - 1];
    assert w <= last < |s.snapshots|;
  }
}
