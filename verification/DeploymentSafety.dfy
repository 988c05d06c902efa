/** What holds over every history of the deployment journal: the promises to users, across
    interleavings, failed writes and crashes (backend/deployment-progress.ts, lines 40-186). */
module DeploymentSafety {
  import opened Common
  import opened DeploymentRows
  import opened DeploymentJournal
  import opened DeploymentInvariants

  // ------------------------------------------------------------------ every run

  /** Never a false success: a completed row, in memory or in the file, belongs to a run whose action returned. */
  lemma NoFalseSuccess(size: seq<Row> -> nat, file: File, nextId: RunId, past: set<RunId>, events: seq<Event>, row: Row)
    requires GoodFile(file, past, nextId)
    ensures var s := Run(size, Boot(file, nextId, past), events);
            (row in s.records || (s.file.Rows? && row in s.file.rows)) && row.state == Completed ==> row.id in s.returned
  {
    RunKeepsCore(size, file, nextId, past, events);
  }

  /** One run per stack, and the row of a run in progress tells exactly what its action did so far. */
  lemma LiveRowTellsItsHistory(size: seq<Row> -> nat, file: File, nextId: RunId, past: set<RunId>, events: seq<Event>, k: CallId)
    requires GoodFile(file, past, nextId)
    ensures var s := Run(size, Boot(file, nextId, past), events);
            k in s.calls ==>
              && s.calls[k].stack in s.active
              && (forall l | l in s.calls && l != k :: s.calls[l].stack != s.calls[k].stack)
              && (s.calls[k].stage.Starting? || s.calls[k].stage.Acting? ==>
                  var c := s.calls[k];
                  exists row :: row in s.records && Find(s.records, c.stack) == Some(row) && row.id == c.stage.id
                                && DeploymentRows.Records(row, c.saved, Reported(c.ops), Emitted(c.ops))
                                && c.ops != [] && c.ops[0].Report? && c.ops[0].phase == if c.saved then Prerequisites else Phase.Save)
  {
    RunKeepsCore(size, file, nextId, past, events);
    var s := Run(size, Boot(file, nextId, past), events);
    if k in s.calls && (s.calls[k].stage.Starting? || s.calls[k].stage.Acting?) {
      var c := s.calls[k];
      LiveRowFacts(c);
      RowHistory(c.stage.id, c.stack, c.saved, c.ops);
      FindUnique(s.records, LiveRow(c));
    }
  }

  // ------------------------------------------------------------- after a crash

  lemma SnapshotReloads(rows: seq<Row>, returned: set<RunId>, nextId: RunId)
    requires GoodTable(rows, returned, nextId)
    ensures LoadRows(Last100(rows)) == ReopenAll(Last100(rows))
  {
    LoadKeepsAll(Last100(rows));
  }

  /** The last write that reached the journal file. */
  function LastLanded(s: State): nat
    requires s.landed != []
  {
    s.landed[|s.landed| - 1]
  }

  /** After a crash anywhere, including inside a write, the next process finds the last landed
      snapshot, complete; it refuses a journal longer than the limit. */
  lemma CrashThenLoad(size: seq<Row> -> nat, file: File, nextId: RunId, past: set<RunId>, events: seq<Event>)
    requires GoodFile(file, past, nextId)
    ensures var s := Run(size, Boot(file, nextId, past), events);
            s.landed != [] ==>
              && LastLanded(s) < |s.snapshots|
              && var last := s.snapshots[LastLanded(s)];
                 DoLoad(DoCrash(s), size) ==
                 if size(last) > MAX_FILE then DoCrash(s).(load := LoadFailed)
                 else DoCrash(s).(load := Loaded, records := ReopenAll(Last100(last)))
  {
    RunKeepsCore(size, file, nextId, past, events);
    RunKeepsWrites(size, file, nextId, past, events);
    var s := Run(size, Boot(file, nextId, past), events);
    if s.landed != [] {
      SnapshotReloads(s.snapshots[LastLanded(s)], s.returned, s.nextId);
    }
  }

  /** `shown` is `row` after a restart: a finished outcome is kept, a run in progress is interrupted. */
  ghost predicate CarriedOver(row: Row, shown: Row) {
    && shown.stack == row.stack && shown.id == row.id && shown.saved == row.saved && shown.steps == row.steps
    && shown.state == if row.state == Running then Interrupted else row.state
  }

  /** Every row of the snapshot is carried over and nothing else appears. */
  lemma ReopenedOutcomes(rows: seq<Row>)
    ensures forall row | row in rows :: exists shown :: shown in ReopenAll(rows) && CarriedOver(row, shown)
    ensures forall shown | shown in ReopenAll(rows) :: exists row :: row in rows && CarriedOver(row, shown)
  {
    forall row | row in rows ensures exists shown :: shown in ReopenAll(rows) && CarriedOver(row, shown) {
      var i :| 0 <= i < |rows| && rows[i] == row;
      assert ReopenAll(rows)[i] in ReopenAll(rows);
    }
    forall shown | shown in ReopenAll(rows) ensures exists row :: row in rows && CarriedOver(row, shown) {
      var i :| 0 <= i < |rows| && ReopenAll(rows)[i] == shown;
      assert rows[i] in rows;
    }
  }
}
