/** The deployment journal as a state machine over all interleavings, write failures and crashes
    (backend/deployment-progress.ts, lines 30-186). A call of `run` is split at its awaits. */
module DeploymentJournal {
  import opened Common
  import opened DeploymentRows

  type CallId = nat

  const MAX_FILE := 1048576

  datatype File = Missing | Rows(rows: seq<Row>) | Torn

  datatype LoadState = NotLoaded | Loaded | LoadFailed

  /** Where a call of `run` is suspended: before its row exists, before its action has started
      (its first snapshot being write `write`), inside the action, or writing its outcome. */
  datatype Stage = Loading | Starting(id: RunId, write: nat) | Acting(id: RunId) | Ending(id: RunId, write: nat)

  /** `ops` are the reports and outputs of the action so far. */
  datatype Call = Call(stack: StackName, saved: bool, expected: Option<RunId>, stage: Stage, ops: seq<Op>)

  datatype State = State(
    records: seq<Row>,
    active: set<StackName>,
    load: LoadState,
    calls: map<CallId, Call>,
    snapshots: seq<seq<Row>>,   // every snapshot ever persisted; its index is its write number
    queue: seq<nat>,            // writes not finished yet, the first one being worked on
    staged: bool,               // the first write has filled the temporary file
    temp: File,
    file: File,
    outcomes: map<nat, bool>,   // finished writes
    landed: seq<nat>,           // writes that reached the journal file, in order
    nextId: RunId,
    returned: set<RunId>,       // runs whose action has returned
    retried: map<(StackName, RunId), nat>) // retries whose action has started, with their first write

  datatype Event =
    | Reserve(call: CallId, stack: StackName, saved: bool, expected: Option<RunId>)
    | Load
    | Begin(call: CallId, now: Time)
    | WriteTemp(ok: bool)
    | Rename(ok: bool)
    | StartAction(call: CallId, error: string)
    | ReportPhase(call: CallId, phase: Phase, now: Time)
    | EmitOutput(call: CallId, chunk: string)
    | ActionReturns(call: CallId, now: Time)
    | ActionThrows(call: CallId, error: string)
    | Release(call: CallId)
    | Crash

  // ---------------------------------------------------------------- transitions

  /** A process that starts on an existing file; `past` are the runs known to have returned. */
  function Boot(file: File, nextId: RunId, past: set<RunId>): State {
    State([], {}, NotLoaded, map[], [], [], false, Torn, file, map[], [], nextId, past, map[])
  }

  function Persist(s: State): State {
    s.(queue := s.queue + [|s.snapshots|], snapshots := s.snapshots + [Snapshot(s.records)])
  }

  function Leave(s: State, call: CallId): State
    requires call in s.calls
  {
    s.(active := s.active - {s.calls[call].stack}, calls := s.calls - {call})
  }

  function SetCall(s: State, call: CallId, c: Call): State {
    s.(calls := s.calls[call := c])
  }

  predicate RetryAllowed(s: State, stack: StackName, id: RunId) {
    var previous := Find(s.records, stack);
    previous.Some? && previous.value.id == id && previous.value.saved && previous.value.state in {Failed, Interrupted}
  }

  /** Install the new row as the last one and evict; false when every row left is active. */
  function Admit(s: State, c: Call): (State, bool) {
    var (kept, ok) := Evict(Delete(s.records, c.stack) + [NewRow(s.nextId, c.stack, c.saved)], s.active);
    (s.(records := kept, nextId := s.nextId + 1), ok)
  }

  /** The first report of run `id`, which persists its row. */
  function Enter(s: State, call: CallId, id: RunId, now: Time): State
    requires call in s.calls
  {
    var c := s.calls[call];
    var row := NewRow(id, c.stack, c.saved);
    var op := Report(row.phase, now);
    SetCall(Persist(s.(records := Replace(s.records, Apply(row, op)))), call,
            c.(stage := Starting(id, |s.snapshots|), ops := [op]))
  }

  predicate Refused(s: State, c: Call) {
    s.load == LoadFailed || (c.expected.Some? && !RetryAllowed(s, c.stack, c.expected.value))
  }

  /** The synchronous part of `run` after loading: check the retry, install the row, evict, report. */
  function DoBegin(s: State, call: CallId, now: Time): State
    requires call in s.calls
  {
    if Refused(s, s.calls[call]) then Leave(s, call)
    else
      var (t, ok) := Admit(s, s.calls[call]);
      if ok then Enter(t, call, s.nextId, now) else Leave(t, call)
  }

  function DoOp(s: State, call: CallId, op: Op): State
    requires call in s.calls && s.calls[call].stage.Acting?
  {
    var c := s.calls[call];
    match Find(s.records, c.stack)
    case None => s
    case Some(row) =>
      var t := SetCall(s.(records := Replace(s.records, Apply(row, op))), call, c.(ops := c.ops + [op]));
      if op.Report? && !SamePhase(row, op.phase) then Persist(t) else t
  }

  function DoEnd(s: State, call: CallId, id: RunId, outcome: Result<Time, string>): State
    requires call in s.calls
  {
    var c := s.calls[call];
    match Find(s.records, c.stack)
    case None => s
    case Some(row) =>
      SetCall(Persist(s.(records := Replace(s.records, Ended(row, outcome)))), call, c.(stage := Ending(id, |s.snapshots|)))
  }

  function DoLoad(s: State, size: seq<Row> -> nat): State {
    match s.file
    case Missing => s.(load := Loaded)
    case Torn => s.(load := LoadFailed)
    case Rows(rows) =>
      if size(rows) > MAX_FILE then s.(load := LoadFailed) else s.(load := Loaded, records := LoadRows(Last100(rows)))
  }

  function FinishWrite(s: State, ok: bool): State
    requires s.queue != []
  {
    s.(queue := s.queue[1..], staged := false, outcomes := s.outcomes[s.queue[0] := ok])
  }

  function DoWriteTemp(s: State, ok: bool): State {
    if s.queue == [] || s.staged || s.queue[0] >= |s.snapshots| then s
    else if ok then s.(staged := true, temp := Rows(s.snapshots[s.queue[0]]))
    else FinishWrite(s.(temp := Torn), false)
  }

  function DoRename(s: State, ok: bool): State {
    if s.queue == [] || !s.staged then s
    else if ok then FinishWrite(s.(file := s.temp, landed := s.landed + [s.queue[0]]), true)
    else FinishWrite(s, false)
  }

  /** Everything in memory is lost; run identifiers are never reused. */
  function DoCrash(s: State): State {
    s.(records := [], active := {}, load := NotLoaded, calls := map[], queue := [], staged := false, temp := Torn)
  }

  function DoReserve(s: State, call: CallId, stack: StackName, saved: bool, expected: Option<RunId>): State {
    if !ValidName(stack) || stack in s.active || call in s.calls then s
    else s.(active := s.active + {stack}, calls := s.calls[call := Call(stack, saved, expected, Loading, [])])
  }

  /** The first snapshot is finished: start the action, or fail if it could not be written. */
  function DoStart(s: State, call: CallId, error: string): State
    requires call in s.calls && s.calls[call].stage.Starting?
  {
    var c := s.calls[call];
    if c.stage.write !in s.outcomes then s
    else if !s.outcomes[c.stage.write] then DoEnd(s, call, c.stage.id, Err(error))
    else
      SetCall(s, call, c.(stage := Acting(c.stage.id)))
        .(retried := if c.expected.Some? then s.retried[(c.stack, c.expected.value) := c.stage.write] else s.retried)
  }

  function DoReturn(s: State, call: CallId, now: Time): State
    requires call in s.calls && s.calls[call].stage.Acting?
  {
    var id := s.calls[call].stage.id;
    DoEnd(s.(returned := s.returned + {id}), call, id, Ok(now))
  }

  function DoRelease(s: State, call: CallId): State
    requires call in s.calls && s.calls[call].stage.Ending?
  {
    if s.calls[call].stage.write in s.outcomes then Leave(s, call) else s
  }

  predicate IsActing(s: State, call: CallId) {
    call in s.calls && s.calls[call].stage.Acting?
  }

  /** `size` is the length of a journal as text. Events that cannot happen now change nothing. */
  function Step(size: seq<Row> -> nat, s: State, e: Event): State {
    match e
    case Reserve(call, stack, saved, expected) => DoReserve(s, call, stack, saved, expected)
    case Load => if s.load == NotLoaded then DoLoad(s, size) else s
    case Begin(call, now) =>
      if call in s.calls && s.calls[call].stage.Loading? && s.load != NotLoaded then DoBegin(s, call, now) else s
    case WriteTemp(ok) => DoWriteTemp(s, ok)
    case Rename(ok) => DoRename(s, ok)
    case StartAction(call, error) => if call in s.calls && s.calls[call].stage.Starting? then DoStart(s, call, error) else s
    case ReportPhase(call, phase, now) => if IsActing(s, call) then DoOp(s, call, Report(phase, now)) else s
    case EmitOutput(call, chunk) => if IsActing(s, call) then DoOp(s, call, Emit(chunk)) else s
    case ActionReturns(call, now) => if IsActing(s, call) then DoReturn(s, call, now) else s
    case ActionThrows(call, error) => if IsActing(s, call) then DoEnd(s, call, s.calls[call].stage.id, Err(error)) else s
    case Release(call) => if call in s.calls && s.calls[call].stage.Ending? then DoRelease(s, call) else s
    case Crash => DoCrash(s)
  }

  function Run(size: seq<Row> -> nat, s: State, events: seq<Event>): State {
    if events == [] then s else Step(size, Run(size, s, events[..|events| - 1]), events[|events| - 1])
  }

  // ------------------------------------------------------------ the write queue

  /** Writes are numbered in the order of the `persist` calls, finish in that order, one at a time,
      and the journal file is the initial one or the latest snapshot that landed, complete. */
  ghost predicate WritesOk(s: State, initial: File) {
    var done := |s.snapshots| - |s.queue|;
    && done >= 0
    && (forall i | 0 <= i < |s.queue| :: s.queue[i] == done + i)
    && (s.staged ==> s.queue != [] && s.temp == Rows(s.snapshots[done]))
    && (forall i, j | 0 <= i < j < |s.landed| :: s.landed[i] < s.landed[j])
    && (forall i | 0 <= i < |s.landed| :: 0 <= s.landed[i] < done)
    && s.file == (if s.landed == [] then initial else Rows(s.snapshots[s.landed[|s.landed| - 1]]))
    && (forall w | w in s.outcomes :: w < done && (s.outcomes[w] <==> w in s.landed))
  }

  /** The writer is not involved, except that `t` may have persisted its records once. */
  ghost predicate MemoryStep(s: State, t: State) {
    && t.staged == s.staged && t.temp == s.temp && t.file == s.file && t.outcomes == s.outcomes && t.landed == s.landed
    && ((t.queue == s.queue && t.snapshots == s.snapshots)
        || (t.queue == s.queue + [|s.snapshots|] && t.snapshots == s.snapshots + [Snapshot(t.records)]))
  }

  lemma MemoryKeepsWrites(s: State, t: State, initial: File)
    requires WritesOk(s, initial) && MemoryStep(s, t)
    ensures WritesOk(t, initial)
  {
  }

  lemma BeginIsMemoryStep(s: State, call: CallId, now: Time)
    requires call in s.calls
    ensures MemoryStep(s, DoBegin(s, call, now))
  {
    var (t, ok) := Admit(s, s.calls[call]);
    assert t == s.(records := t.records, nextId := t.nextId);
  }

  /** `t` is `s` with a new row for the stack of the call and the call changed to `d`, saved or not. */
  ghost predicate Updated(s: State, t: State, call: CallId, row: Row, d: Call) {
    && t == s.(records := Replace(s.records, row), calls := s.calls[call := d], queue := t.queue, snapshots := t.snapshots)
    && ((t.queue == s.queue && t.snapshots == s.snapshots)
        || (t.queue == s.queue + [|s.snapshots|] && t.snapshots == s.snapshots + [Snapshot(t.records)]))
  }

  lemma OpUpdates(s: State, call: CallId, op: Op, row: Row)
    requires IsActing(s, call) && Find(s.records, s.calls[call].stack) == Some(row)
    ensures Updated(s, DoOp(s, call, op), call, Apply(row, op), s.calls[call].(ops := s.calls[call].ops + [op]))
  {
  }

  lemma EndUpdates(s: State, call: CallId, id: RunId, outcome: Result<Time, string>, row: Row)
    requires call in s.calls && Find(s.records, s.calls[call].stack) == Some(row)
    ensures Updated(s, DoEnd(s, call, id, outcome), call, Ended(row, outcome), s.calls[call].(stage := Ending(id, |s.snapshots|)))
  {
  }

  lemma OpIsMemoryStep(s: State, call: CallId, op: Op)
    requires IsActing(s, call)
    ensures MemoryStep(s, DoOp(s, call, op))
  {
    var found := Find(s.records, s.calls[call].stack);
    if found.Some? {
      OpUpdates(s, call, op, found.value);
    }
  }

  lemma EndIsMemoryStep(s: State, call: CallId, id: RunId, outcome: Result<Time, string>)
    requires call in s.calls
    ensures MemoryStep(s, DoEnd(s, call, id, outcome))
  {
    var found := Find(s.records, s.calls[call].stack);
    if found.Some? {
      EndUpdates(s, call, id, outcome, found.value);
    }
  }

  lemma StartIsMemoryStep(s: State, call: CallId, error: string)
    requires call in s.calls && s.calls[call].stage.Starting?
    ensures MemoryStep(s, DoStart(s, call, error))
  {
    EndIsMemoryStep(s, call, s.calls[call].stage.id, Err(error));
  }

  lemma ReturnIsMemoryStep(s: State, call: CallId, now: Time)
    requires IsActing(s, call)
    ensures MemoryStep(s, DoReturn(s, call, now))
  {
    var id := s.calls[call].stage.id;
    EndIsMemoryStep(s.(returned := s.returned + {id}), call, id, Ok(now));
  }

  lemma LoadIsMemoryStep(s: State, size: seq<Row> -> nat)
    ensures MemoryStep(s, DoLoad(s, size))
  {
  }

  lemma ReservationIsMemoryStep(s: State, call: CallId, stack: StackName, saved: bool, expected: Option<RunId>)
    ensures MemoryStep(s, DoReserve(s, call, stack, saved, expected))
  {
  }

  lemma StepIsMemoryStep(size: seq<Row> -> nat, s: State, e: Event)
    requires !e.WriteTemp? && !e.Rename? && !e.Crash?
    ensures MemoryStep(s, Step(size, s, e))
  {
    match e
    case Begin(call, now) => if call in s.calls { BeginIsMemoryStep(s, call, now); }
    case ReportPhase(call, phase, now) => if IsActing(s, call) { OpIsMemoryStep(s, call, Report(phase, now)); }
    case EmitOutput(call, chunk) => if IsActing(s, call) { OpIsMemoryStep(s, call, Emit(chunk)); }
    case StartAction(call, error) => if call in s.calls && s.calls[call].stage.Starting? { StartIsMemoryStep(s, call, error); }
    case ActionThrows(call, error) => if IsActing(s, call) { EndIsMemoryStep(s, call, s.calls[call].stage.id, Err(error)); }
    case ActionReturns(call, now) => if IsActing(s, call) { ReturnIsMemoryStep(s, call, now); }
    case Load => LoadIsMemoryStep(s, size);
    case Reserve(call, stack, saved, expected) => ReservationIsMemoryStep(s, call, stack, saved, expected);
    case Release(call) =>
  }

  lemma WriteTempKeepsWrites(s: State, ok: bool, initial: File)
    requires WritesOk(s, initial)
    ensures WritesOk(DoWriteTemp(s, ok), initial)
  {
  }

  lemma RenameKeepsWrites(s: State, ok: bool, initial: File)
    requires WritesOk(s, initial)
    ensures WritesOk(DoRename(s, ok), initial)
  {
    var t := DoRename(s, ok);
    if s.queue != [] && s.staged && ok {
      assert t.landed[|s.landed|] == s.queue[0];
      assert forall w | w in s.landed :: w in t.landed;
    }
  }

  lemma StepKeepsWrites(size: seq<Row> -> nat, s: State, e: Event, initial: File)
    requires WritesOk(s, initial)
    ensures WritesOk(Step(size, s, e), initial)
  {
    match e
    case WriteTemp(ok) => WriteTempKeepsWrites(s, ok, initial);
    case Rename(ok) => RenameKeepsWrites(s, ok, initial);
    case Crash =>
    case _ =>
      StepIsMemoryStep(size, s, e);
      MemoryKeepsWrites(s, Step(size, s, e), initial);
  }

  lemma {:induction false} RunKeepsWrites(size: seq<Row> -> nat, file: File, nextId: RunId, past: set<RunId>, events: seq<Event>)
    ensures WritesOk(Run(size, Boot(file, nextId, past), events), file)
  {
    if events == [] {
    } else {
      var front := events[..|events| - 1];
      RunKeepsWrites(size, file, nextId, past, front);
      StepKeepsWrites(size, Run(size, Boot(file, nextId, past), front), events[|events| - 1], file);
    }
  }
}
