/** The deployment store, updated step by step (backend/deployment-progress.ts, lines 30-186).
    Each method is one stretch between two awaits and is one event of the state machine. */
module DeploymentStores {
  import opened Common
  import opened DeploymentRows
  import opened DeploymentJournal

  class DeploymentStore {
    var records: seq<Row>
    var active: set<StackName>
    var loading: LoadState
    var calls: map<CallId, Call>
    var snapshots: seq<seq<Row>>
    var writing: seq<nat>
    var staged: bool
    var temp: File
    var file: File
    var settled: map<nat, bool>
    var nextId: RunId
    ghost var landed: seq<nat>
    ghost var returned: set<RunId>
    ghost var retried: map<(StackName, RunId), nat>

    ghost function View(): State
      reads this
    {
      State(records, active, loading, calls, snapshots, writing, staged, temp, file, settled, landed, nextId, returned, retried)
    }

    constructor (journal: File, freshId: RunId, ghost past: set<RunId>)
      ensures View() == Boot(journal, freshId, past)
    {
      records, active, loading, calls := [], {}, NotLoaded, map[];
      snapshots, writing, staged, temp, file := [], [], false, Torn, journal;
      settled, nextId, landed, returned, retried := map[], freshId, [], past, map[];
    }

    /** `run` up to its first await: two tabs cannot start the same installation. */
    method Reserve(call: CallId, stack: StackName, saved: bool, expected: Option<RunId>) returns (ok: bool)
      requires call !in calls
      modifies this
      ensures ok <==> ValidName(stack) && stack !in old(active)
      ensures View() == DoReserve(old(View()), call, stack, saved, expected)
    {
      if !ValidName(stack) || stack in active {
        return false;
      }
      active := active + {stack};
      calls := calls[call := Call(stack, saved, expected, Loading, [])];
      return true;
    }

    method Load(size: seq<Row> -> nat)
      modifies this
      ensures View() == Step(size, old(View()), Event.Load)
    {
      if loading != NotLoaded {
        return;
      }
      match file {
        case Missing => loading := Loaded;
        case Torn => loading := LoadFailed;
        case Rows(rows) =>
          if size(rows) > MAX_FILE {
            loading := LoadFailed;
            return;
          }
          records := LoadLoop(Last100(rows));
          loading := Loaded;
      }
    }

    /** The loop of `load`. */
    static method LoadLoop(rows: seq<Row>) returns (loaded: seq<Row>)
      ensures loaded == LoadRows(rows)
    {
      loaded := [];
      for i := 0 to |rows|
        invariant loaded == LoadRows(rows[..i])
      {
        assert rows[..i + 1][..i] == rows[..i];
        if ValidName(rows[i].stack) {
          loaded := Put(loaded, Reopened(rows[i]));
        }
      }
      assert rows[..|rows|] == rows;
    }

    method Save() returns (write: nat)
      modifies this
      ensures write == |old(snapshots)| && View() == Persist(old(View()))
    {
      write := |snapshots|;
      snapshots := snapshots + [Snapshot(records)];
      writing := writing + [write];
    }

    /** The `finally` of `run`. */
    method Leave(call: CallId)
      requires call in calls
      modifies this
      ensures View() == DeploymentJournal.Leave(old(View()), call)
    {
      active := active - {calls[call].stack};
      calls := calls - {call};
    }

    method Begin(call: CallId, now: Time)
      requires call in calls && calls[call].stage.Loading? && loading != NotLoaded
      modifies this
      ensures View() == DoBegin(old(View()), call, now)
    {
      var c := calls[call];
      if loading == LoadFailed {
        Leave(call);
        return;
      }
      if c.expected.Some? {
        var previous := Find(records, c.stack);
        if previous.None? || previous.value.id != c.expected.value || !previous.value.saved
           || previous.value.state !in {Failed, Interrupted} {
          Leave(call);
          return;
        }
      }
      var id := nextId;
      var ok := AdmitRow(c);
      if ok {
        FirstReport(call, id, now);
      } else {
        Leave(call);
      }
    }

    method AdmitRow(c: Call) returns (ok: bool)
      modifies this
      ensures View() == Admit(old(View()), c).0 && ok == Admit(old(View()), c).1
    {
      ghost var before := View();
      ok := InstallRow(NewRow(nextId, c.stack, c.saved));
      nextId := nextId + 1;
      assert View() == before.(records := records, nextId := nextId);
    }

    method InstallRow(row: Row) returns (ok: bool)
      modifies this`records
      ensures (records, ok) == Evict(Delete(old(records), row.stack) + [row], active)
    {
      records := Delete(records, row.stack);
      records := records + [row];
      records, ok := EvictLoop(records, active);
    }

    method FirstReport(call: CallId, id: RunId, now: Time)
      requires call in calls
      modifies this
      ensures View() == Enter(old(View()), call, id, now)
    {
      var c := calls[call];
      var row := NewRow(id, c.stack, c.saved);
      var updated := UpdateRow(row, row.phase, now);
      records := Replace(records, updated);
      var write := Save();
      calls := calls[call := c.(stage := Starting(id, write), ops := [DeploymentRows.Report(row.phase, now)])];
    }

    /** The updates of the row inside `report`. */
    static method UpdateRow(row0: Row, phase: Phase, now: Time) returns (row: Row)
      ensures row == ReportRow(row0, phase, now)
    {
      row := row0;
      if row.steps != [] && row.steps[|row.steps| - 1].phase == phase {
        return;
      }
      if row.steps != [] {
        row := row.(steps := row.steps[|row.steps| - 1 := row.steps[|row.steps| - 1].(finishedAt := Some(now))]);
      }
      row := row.(phase := phase);
      row := row.(saved := row.saved || phase != Phase.Save);
      row := row.(steps := row.steps + [PhaseStep(phase, now, None)]);
    }

    method StartAction(call: CallId, error: string)
      requires call in calls && calls[call].stage.Starting?
      modifies this
      ensures View() == DoStart(old(View()), call, error)
    {
      var c := calls[call];
      var write := c.stage.write;
      if write !in settled {
        return;
      }
      if !settled[write] {
        Finish(call, Err(error));
        return;
      }
      calls := calls[call := c.(stage := Acting(c.stage.id))];
      if c.expected.Some? {
        retried := retried[(c.stack, c.expected.value) := write];
      }
    }

    method Report(call: CallId, phase: Phase, now: Time)
      requires call in calls && calls[call].stage.Acting?
      modifies this
      ensures View() == DoOp(old(View()), call, DeploymentRows.Report(phase, now))
    {
      var c := calls[call];
      var found := Find(records, c.stack);
      if found.None? {
        return;
      }
      var row := found.value;
      var updated := UpdateRow(row, phase, now);
      records := Replace(records, updated);
      calls := calls[call := c.(ops := c.ops + [DeploymentRows.Report(phase, now)])];
      if row.steps != [] && row.steps[|row.steps| - 1].phase == phase {
        return;
      }
      var _ := Save();
    }

    static method AppendOutput(row0: Row, chunk: string) returns (row: Row)
      ensures row == EmitRow(row0, chunk)
    {
      var output := (if row0.output.Some? then row0.output.value else "") + chunk;
      if |output| > MAX_OUTPUT {
        output := output[|output| - MAX_OUTPUT..];
      }
      row := row0.(output := Some(output));
    }

    method Output(call: CallId, chunk: string)
      requires call in calls && calls[call].stage.Acting?
      modifies this
      ensures View() == DoOp(old(View()), call, Emit(chunk))
    {
      var c := calls[call];
      var found := Find(records, c.stack);
      if found.None? {
        return;
      }
      var row := found.value;
      row := AppendOutput(row, chunk);
      records := Replace(records, row);
      calls := calls[call := c.(ops := c.ops + [Emit(chunk)])];
    }

    /** The outcome of a run and its last snapshot. */
    method Finish(call: CallId, outcome: Result<Time, string>)
      requires call in calls && (calls[call].stage.Starting? || calls[call].stage.Acting?)
      modifies this
      ensures View() == DoEnd(old(View()), call, old(calls[call].stage.id), outcome)
    {
      var c := calls[call];
      var found := Find(records, c.stack);
      if found.None? {
        return;
      }
      var row := found.value;
      if outcome.Ok? {
        row := row.(state := Completed);
        row := row.(steps := CloseLast(row.steps, outcome.value));
      } else {
        row := row.(state := Failed);
        row := row.(output := Some(Tail(Text(row) + "\n" + outcome.error)));
      }
      records := Replace(records, row);
      var write := Save();
      calls := calls[call := c.(stage := Ending(c.stage.id, write))];
    }

    method Return(call: CallId, now: Time)
      requires call in calls && calls[call].stage.Acting?
      modifies this
      ensures View() == DoReturn(old(View()), call, now)
    {
      returned := returned + {calls[call].stage.id};
      Finish(call, Ok(now));
    }

    method Release(call: CallId)
      requires call in calls && calls[call].stage.Ending?
      modifies this
      ensures View() == DoRelease(old(View()), call)
    {
      if calls[call].stage.write in settled {
        Leave(call);
      }
    }

    /** `writeFile` of the temporary file for the write at the head of the chain. */
    method WriteTemp(ok: bool)
      requires writing != [] && !staged && writing[0] < |snapshots|
      modifies this
      ensures View() == DoWriteTemp(old(View()), ok)
    {
      if ok {
        temp, staged := Rows(snapshots[writing[0]]), true;
      } else {
        temp := Torn;
        settled, writing := settled[writing[0] := false], writing[1..];
      }
    }

    /** `rename` over the journal file; the next write starts whether or not it succeeds. */
    method Rename(ok: bool)
      requires writing != [] && staged
      modifies this
      ensures View() == DoRename(old(View()), ok)
    {
      if ok {
        file := temp;
        landed := landed + [writing[0]];
      }
      settled, writing, staged := settled[writing[0] := ok], writing[1..], false;
    }

    /** The process dies and a new one starts on the same disk. */
    method Crash()
      modifies this
      ensures View() == DoCrash(old(View()))
    {
      LoseRuns();
      writing := [];
      staged := false;
      temp := Torn;
    }

    method LoseRuns()
      modifies this
      ensures View() == old(View()).(records := [], active := {}, load := NotLoaded, calls := map[])
    {
      records := [];
      active := {};
      loading := NotLoaded;
      calls := map[];
    }

    /** Run the code an event resumes; an event that cannot happen now changes nothing. */
    method Deliver(size: seq<Row> -> nat, e: Event)
      modifies this
      ensures View() == Step(size, old(View()), e)
    {
      match e {
        case Reserve(call, stack, saved, expected) =>
          if call !in calls {
            var _ := Reserve(call, stack, saved, expected);
          }
        case Load => Load(size);
        case Begin(call, now) => if call in calls && calls[call].stage.Loading? && loading != NotLoaded { Begin(call, now); }
        case StartAction(call, error) => if call in calls && calls[call].stage.Starting? { StartAction(call, error); }
        case Release(call) => if call in calls && calls[call].stage.Ending? { Release(call); }
        case WriteTemp(ok) => if writing != [] && !staged && writing[0] < |snapshots| { WriteTemp(ok); }
        case Rename(ok) => if writing != [] && staged { Rename(ok); }
        case Crash => Crash();
        case _ => DeliverToAction(size, e);
      }
    }

    /** What an action in progress does. */
    method DeliverToAction(size: seq<Row> -> nat, e: Event)
      requires e.ReportPhase? || e.EmitOutput? || e.ActionReturns? || e.ActionThrows?
      modifies this
      ensures View() == Step(size, old(View()), e)
    {
      if e.call !in calls || !calls[e.call].stage.Acting? {
        return;
      }
      match e {
        case ReportPhase(call, phase, now) => Report(call, phase, now);
        case EmitOutput(call, chunk) => Output(call, chunk);
        case ActionReturns(call, now) => Return(call, now);
        case ActionThrows(call, error) => Finish(call, Err(error));
      }
    }

    /** Any history of the store, crashes included, is a run of the state machine. */
    method DeliverAll(size: seq<Row> -> nat, events: seq<Event>)
      modifies this
      ensures View() == Run(size, old(View()), events)
    {
      ghost var before := View();
      for i := 0 to |events|
        invariant View() == Run(size, before, events[..i])
      {
        Deliver(size, events[i]);
        assert events[..i + 1][..i] == events[..i];
      }
      assert events[..|events|] == events;
    }
  }
}
