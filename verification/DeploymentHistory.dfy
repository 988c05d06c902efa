/** What the journal hears and when it writes, told by the events alone
    (backend/deployment-progress.ts, lines 61-186). */
module DeploymentHistory {
  import opened Common
  import opened DeploymentRows
  import opened DeploymentJournal
  import opened DeploymentInvariants
  import opened DeploymentSafety

  // ------------------------------------------------------------ what a call hears

  /** What the run of call `k` hears with this event. */
  ghost function Heard(s: State, e: Event, k: CallId): Option<Op> {
    if k !in s.calls then None
    else match s.calls[k].stage
      case Loading => if e.Begin? && e.call == k && s.load != NotLoaded then Some(FirstOp(s.calls[k], e.now)) else None
      case Acting(_) =>
        if e.ReportPhase? && e.call == k then Some(Report(e.phase, e.now))
        else if e.EmitOutput? && e.call == k then Some(Emit(e.chunk))
        else None
      case _ => None
  }

  /** A run starts with saving, or right after it when the stack was saved before. */
  function FirstOp(c: Call, now: Time): Op {
    Report(if c.saved then Prerequisites else Phase.Save, now)
  }

  /** A call is what was reserved; what it hears is added to its story. */
  ghost predicate CallMoves(s: State, t: State, e: Event, k: CallId)
    requires k in t.calls
  {
    var d := t.calls[k];
    if k !in s.calls then e.Reserve? && e.call == k && d == Call(e.stack, e.saved, e.expected, Loading, [])
    else
      var c := s.calls[k];
      && d.stack == c.stack && d.saved == c.saved && d.expected == c.expected
      && (d.stage.Loading? <==> c.stage.Loading? && Heard(s, e, k).None?)
      && match Heard(s, e, k)
         case None => d.ops == c.ops
         case Some(op) => d.ops == if c.stage.Loading? then [op] else c.ops + [op]
  }

  lemma BeginMoves(s: State, call: CallId, now: Time, k: CallId)
    requires call in s.calls && s.calls[call].stage.Loading? && s.load != NotLoaded && k in DoBegin(s, call, now).calls
    ensures CallMoves(s, DoBegin(s, call, now), Begin(call, now), k)
  {
    var t := DoBegin(s, call, now);
    assert k in s.calls && (k != call ==> t.calls[k] == s.calls[k]);
  }

  lemma OpMoves(s: State, call: CallId, op: Op, e: Event, k: CallId)
    requires IsActing(s, call) && CallRow(s.records, s.calls[call]) && DistinctStacks(s.records) && k in s.calls
    requires e == match op case Report(phase, now) => ReportPhase(call, phase, now) case Emit(chunk) => EmitOutput(call, chunk)
    ensures k in DoOp(s, call, op).calls && CallMoves(s, DoOp(s, call, op), e, k)
  {
    LiveRowFacts(s.calls[call]);
    FindUnique(s.records, LiveRow(s.calls[call]));
    OpUpdates(s, call, op, LiveRow(s.calls[call]));
  }

  lemma EndMoves(s: State, t: State, call: CallId, id: RunId, outcome: Result<Time, string>, e: Event, k: CallId)
    requires call in s.calls && !s.calls[call].stage.Loading? && k in s.calls && t == DoEnd(s, call, id, outcome)
    requires e.ActionReturns? || e.ActionThrows? || e.StartAction?
    ensures k in t.calls && CallMoves(s, t, e, k)
  {
    var found := Find(s.records, s.calls[call].stack);
    if found.Some? {
      EndUpdates(s, call, id, outcome, found.value);
    }
  }

  lemma StartMoves(s: State, call: CallId, error: string, k: CallId)
    requires call in s.calls && s.calls[call].stage.Starting? && k in s.calls
    ensures k in DoStart(s, call, error).calls && CallMoves(s, DoStart(s, call, error), StartAction(call, error), k)
  {
    var w := s.calls[call].stage.write;
    if w in s.outcomes && !s.outcomes[w] {
      EndMoves(s, DoStart(s, call, error), call, s.calls[call].stage.id, Err(error), StartAction(call, error), k);
    }
  }

  lemma ReturnMoves(s: State, call: CallId, now: Time, k: CallId)
    requires IsActing(s, call) && k in s.calls
    ensures k in DoReturn(s, call, now).calls && CallMoves(s, DoReturn(s, call, now), ActionReturns(call, now), k)
  {
    var u := s.(returned := s.returned + {s.calls[call].stage.id});
    EndMoves(u, DoReturn(s, call, now), call, s.calls[call].stage.id, Ok(now), ActionReturns(call, now), k);
  }

  lemma ThrowMoves(s: State, call: CallId, error: string, k: CallId)
    requires IsActing(s, call) && k in s.calls
    ensures var t := DoEnd(s, call, s.calls[call].stage.id, Err(error));
            k in t.calls && CallMoves(s, t, ActionThrows(call, error), k)
  {
    var id := s.calls[call].stage.id;
    EndMoves(s, DoEnd(s, call, id, Err(error)), call, id, Err(error), ActionThrows(call, error), k);
  }

  lemma NothingHeard(s: State, e: Event, k: CallId)
    requires k in s.calls && Heard(s, e, k).None?
    ensures CallMoves(s, s, e, k)
  {
  }

  lemma WriterKeepsCalls(s: State, e: Event, k: CallId, ok: bool)
    requires k in s.calls && (e.WriteTemp? || e.Rename?)
    ensures DoWriteTemp(s, ok).calls == s.calls && CallMoves(s, DoWriteTemp(s, ok), e, k)
    ensures DoRename(s, ok).calls == s.calls && CallMoves(s, DoRename(s, ok), e, k)
  {
  }

  lemma ReserveMoves(s: State, call: CallId, stack: StackName, saved: bool, expected: Option<RunId>, k: CallId)
    requires k in DoReserve(s, call, stack, saved, expected).calls
    ensures CallMoves(s, DoReserve(s, call, stack, saved, expected), Reserve(call, stack, saved, expected), k)
  {
  }

  lemma ReleaseMoves(size: seq<Row> -> nat, s: State, e: Event, k: CallId)
    requires (e.Load? || e.Release? || e.Crash?) && k in Step(size, s, e).calls
    ensures CallMoves(s, Step(size, s, e), e, k)
  {
    match e
    case Load =>
    case Release(_) =>
    case Crash =>
  }

  lemma QuietMoves(size: seq<Row> -> nat, s: State, e: Event, k: CallId)
    requires (e.Reserve? || e.Load? || e.WriteTemp? || e.Rename? || e.Release? || e.Crash?) && k in Step(size, s, e).calls
    ensures CallMoves(s, Step(size, s, e), e, k)
  {
    match e
    case Reserve(call, stack, saved, expected) => ReserveMoves(s, call, stack, saved, expected, k);
    case WriteTemp(ok) => WriterKeepsCalls(s, e, k, ok);
    case Rename(ok) => WriterKeepsCalls(s, e, k, ok);
    case _ => ReleaseMoves(size, s, e, k);
  }

  lemma ActionMoves(size: seq<Row> -> nat, s: State, e: Event, k: CallId)
    requires Core(s) && k in s.calls
    requires e.StartAction? || e.ReportPhase? || e.EmitOutput? || e.ActionReturns? || e.ActionThrows?
    ensures k in Step(size, s, e).calls && CallMoves(s, Step(size, s, e), e, k)
  {
    match e
    case StartAction(call, error) =>
      if call in s.calls && s.calls[call].stage.Starting? { StartMoves(s, call, error, k); } else { NothingHeard(s, e, k); }
    case ReportPhase(call, phase, now) =>
      if IsActing(s, call) { OpMoves(s, call, Report(phase, now), e, k); } else { NothingHeard(s, e, k); }
    case EmitOutput(call, chunk) =>
      if IsActing(s, call) { OpMoves(s, call, Emit(chunk), e, k); } else { NothingHeard(s, e, k); }
    case ActionReturns(call, now) =>
      if IsActing(s, call) { ReturnMoves(s, call, now, k); } else { NothingHeard(s, e, k); }
    case ActionThrows(call, error) =>
      if IsActing(s, call) { ThrowMoves(s, call, error, k); } else { NothingHeard(s, e, k); }
  }

  lemma StepMoves(size: seq<Row> -> nat, s: State, e: Event, k: CallId)
    requires Core(s) && k in Step(size, s, e).calls
    ensures CallMoves(s, Step(size, s, e), e, k)
  {
    match e
    case Begin(call, now) =>
      if call in s.calls && s.calls[call].stage.Loading? && s.load != NotLoaded { BeginMoves(s, call, now, k); }
    case Reserve(_, _, _, _) => QuietMoves(size, s, e, k);
    case Load => QuietMoves(size, s, e, k);
    case WriteTemp(_) => QuietMoves(size, s, e, k);
    case Rename(_) => QuietMoves(size, s, e, k);
    case Release(_) => QuietMoves(size, s, e, k);
    case Crash => QuietMoves(size, s, e, k);
    case _ =>
      ActionKeepsCalls(size, s, e, k);
      ActionMoves(size, s, e, k);
  }

  lemma ActionKeepsCalls(size: seq<Row> -> nat, s: State, e: Event, k: CallId)
    requires e.StartAction? || e.ReportPhase? || e.EmitOutput? || e.ActionReturns? || e.ActionThrows?
    requires k in Step(size, s, e).calls
    ensures k in s.calls
  {
  }

  /** The reports and the output of call `k` since its run began. */
  ghost function Story(size: seq<Row> -> nat, start: State, events: seq<Event>, k: CallId): seq<Op> {
    if events == [] then []
    else
      var front, last := events[..|events| - 1], events[|events| - 1];
      var s := Run(size, start, front);
      match Heard(s, last, k)
      case None => if k in s.calls then Story(size, start, front, k) else []
      case Some(op) => if s.calls[k].stage.Loading? then [op] else Story(size, start, front, k) + [op]
  }

  /** Every report and every output of the action of a run, and nothing else, is part of its story, which
      is what its row tells. */
  lemma {:induction false} StoryIsHeard(size: seq<Row> -> nat, file: File, nextId: RunId, past: set<RunId>, events: seq<Event>, k: CallId)
    requires GoodFile(file, past, nextId)
    ensures var s := Run(size, Boot(file, nextId, past), events);
            k in s.calls ==> s.calls[k].ops == Story(size, Boot(file, nextId, past), events, k)
  {
    if events == [] {
    } else {
      var front, last := events[..|events| - 1], events[|events| - 1];
      var s := Run(size, Boot(file, nextId, past), front);
      StoryIsHeard(size, file, nextId, past, front, k);
      RunKeepsCore(size, file, nextId, past, front);
      if k in Step(size, s, last).calls {
        StepMoves(size, s, last, k);
      }
    }
  }

  // ------------------------------------------------------- when a snapshot is written

  /** A run begins, reports another phase than before, or ends. */
  ghost predicate Writes(s: State, t: State, e: Event) {
    match e
    case Begin(call, _) => Heard(s, e, call).Some? && call in t.calls
    case ReportPhase(call, phase, _) =>
      IsActing(s, call) && (Reported(s.calls[call].ops) == [] || Reported(s.calls[call].ops)[|Reported(s.calls[call].ops)| - 1].0 != phase)
    case ActionReturns(call, _) => IsActing(s, call)
    case ActionThrows(call, _) => IsActing(s, call)
    case StartAction(call, _) => call in s.calls && s.calls[call].stage.Starting? && call in t.calls && t.calls[call].stage.Ending?
    case _ => false
  }

  /** Exactly then the whole table is queued for writing. */
  ghost predicate SnapshotMoves(s: State, t: State, e: Event) {
    if Writes(s, t, e) then t.snapshots == s.snapshots + [Snapshot(t.records)] && t.queue == s.queue + [|s.snapshots|]
    else t.snapshots == s.snapshots
  }

  lemma BeginWrites(s: State, call: CallId, now: Time)
    requires call in s.calls && s.calls[call].stage.Loading? && s.load != NotLoaded
    ensures SnapshotMoves(s, DoBegin(s, call, now), Begin(call, now))
  {
  }

  lemma LiveRowIsFound(s: State, call: CallId)
    requires Core(s) && call in s.calls && (s.calls[call].stage.Starting? || s.calls[call].stage.Acting?)
    ensures Find(s.records, s.calls[call].stack) == Some(LiveRow(s.calls[call]))
  {
    LiveRowFacts(s.calls[call]);
    FindUnique(s.records, LiveRow(s.calls[call]));
  }

  lemma LastPhaseIsKnown(c: Call, phase: Phase)
    requires c.stage.Starting? || c.stage.Acting?
    ensures SamePhase(LiveRow(c), phase) <==> Reported(c.ops) != [] && Reported(c.ops)[|Reported(c.ops)| - 1].0 == phase
  {
    RowHistory(c.stage.id, c.stack, c.saved, c.ops);
    assert Records(LiveRow(c), c.saved, Reported(c.ops), Emitted(c.ops));
  }

  lemma ReportWrites(s: State, call: CallId, phase: Phase, now: Time)
    requires IsActing(s, call) && Find(s.records, s.calls[call].stack) == Some(LiveRow(s.calls[call]))
    ensures SnapshotMoves(s, DoOp(s, call, Report(phase, now)), ReportPhase(call, phase, now))
  {
    LastPhaseIsKnown(s.calls[call], phase);
  }

  lemma EmitWritesNothing(s: State, call: CallId, chunk: string)
    requires IsActing(s, call)
    ensures DoOp(s, call, Emit(chunk)).snapshots == s.snapshots
  {
  }

  lemma EndWrites(s: State, call: CallId, id: RunId, outcome: Result<Time, string>)
    requires call in s.calls && Find(s.records, s.calls[call].stack).Some?
    ensures var t := DoEnd(s, call, id, outcome);
            t.snapshots == s.snapshots + [Snapshot(t.records)] && t.queue == s.queue + [|s.snapshots|] && call in t.calls && t.calls[call].stage.Ending?
  {
  }

  lemma ReturnWrites(s: State, call: CallId, now: Time)
    requires IsActing(s, call) && Find(s.records, s.calls[call].stack).Some?
    ensures SnapshotMoves(s, DoReturn(s, call, now), ActionReturns(call, now))
  {
    EndWrites(s.(returned := s.returned + {s.calls[call].stage.id}), call, s.calls[call].stage.id, Ok(now));
  }

  lemma StartWrites(s: State, call: CallId, error: string)
    requires call in s.calls && s.calls[call].stage.Starting? && Find(s.records, s.calls[call].stack).Some?
    ensures SnapshotMoves(s, DoStart(s, call, error), StartAction(call, error))
  {
    EndWrites(s, call, s.calls[call].stage.id, Err(error));
  }

  lemma ActionWrites(size: seq<Row> -> nat, s: State, e: Event)
    requires e.ReportPhase? || e.EmitOutput? || e.ActionReturns? || e.ActionThrows?
    requires IsActing(s, e.call) && Find(s.records, s.calls[e.call].stack) == Some(LiveRow(s.calls[e.call]))
    ensures SnapshotMoves(s, Step(size, s, e), e)
  {
    match e
    case ReportPhase(call, phase, now) => ReportWrites(s, call, phase, now);
    case EmitOutput(call, chunk) => EmitWritesNothing(s, call, chunk);
    case ActionReturns(call, now) => ReturnWrites(s, call, now);
    case ActionThrows(call, error) => EndWrites(s, call, s.calls[call].stage.id, Err(error));
  }

  lemma QuietWritesNothing(size: seq<Row> -> nat, s: State, e: Event)
    requires e.Reserve? || e.Load? || e.WriteTemp? || e.Rename? || e.Release? || e.Crash?
    ensures Step(size, s, e).snapshots == s.snapshots
  {
    match e
    case Reserve(_, _, _, _) =>
    case Load =>
    case WriteTemp(_) =>
    case Rename(_) =>
    case Release(_) =>
    case Crash =>
  }

  lemma StepWrites(size: seq<Row> -> nat, s: State, e: Event)
    requires Core(s)
    ensures SnapshotMoves(s, Step(size, s, e), e)
  {
    match e
    case Begin(call, now) => if call in s.calls && s.calls[call].stage.Loading? && s.load != NotLoaded { BeginWrites(s, call, now); }
    case StartAction(call, error) =>
      if call in s.calls && s.calls[call].stage.Starting? {
        LiveRowIsFound(s, call);
        StartWrites(s, call, error);
      }
    case ReportPhase(call, _, _) => if IsActing(s, call) { LiveRowIsFound(s, call); ActionWrites(size, s, e); }
    case EmitOutput(call, _) => if IsActing(s, call) { LiveRowIsFound(s, call); ActionWrites(size, s, e); }
    case ActionReturns(call, _) => if IsActing(s, call) { LiveRowIsFound(s, call); ActionWrites(size, s, e); }
    case ActionThrows(call, _) => if IsActing(s, call) { LiveRowIsFound(s, call); ActionWrites(size, s, e); }
    case _ => QuietWritesNothing(size, s, e);
  }

  /** In every reachable state a snapshot is queued exactly when a run begins, enters another phase or ends. */
  lemma WritesExactly(size: seq<Row> -> nat, file: File, nextId: RunId, past: set<RunId>, events: seq<Event>, e: Event)
    requires GoodFile(file, past, nextId)
    ensures var s := Run(size, Boot(file, nextId, past), events); SnapshotMoves(s, Step(size, s, e), e)
  {
    RunKeepsCore(size, file, nextId, past, events);
    StepWrites(size, Run(size, Boot(file, nextId, past), events), e);
  }

  // --------------------------------------------------------------- what becomes of a write

  /** The first write is over: its temporary file could not be written, or the rename was tried. */
  ghost predicate EndsWrite(s: State, e: Event) {
    s.queue != [] && ((e == WriteTemp(false) && !s.staged) || (e.Rename? && s.staged))
  }

  ghost predicate Lands(s: State, e: Event) {
    s.queue != [] && s.staged && e == Rename(true)
  }

  ghost predicate WriterMoves(s: State, t: State, e: Event) {
    && t.outcomes == (if EndsWrite(s, e) then s.outcomes[s.queue[0] := Lands(s, e)] else s.outcomes)
    && t.landed == (if Lands(s, e) then s.landed + [s.queue[0]] else s.landed)
    && (t.staged <==> (e == WriteTemp(true) && s.queue != []) || (s.staged && !e.Rename? && !e.Crash?))
    && (e.WriteTemp? || e.Rename? ==> t.queue == if EndsWrite(s, e) then s.queue[1..] else s.queue)
    && (e.Crash? ==> t.queue == [])
  }

  /** The file holds the snapshot of the write that landed, and is not touched otherwise. */
  ghost predicate FileMoves(s: State, t: State, e: Event) {
    if Lands(s, e) then s.queue[0] < |s.snapshots| && t.file == Rows(s.snapshots[s.queue[0]]) else t.file == s.file
  }

  lemma TempMoves(s: State, ok: bool)
    requires s.queue != [] ==> s.queue[0] < |s.snapshots|
    ensures WriterMoves(s, DoWriteTemp(s, ok), WriteTemp(ok)) && FileMoves(s, DoWriteTemp(s, ok), WriteTemp(ok))
  {
  }

  lemma RenameMoves(s: State, ok: bool)
    requires s.staged ==> s.queue != [] && s.queue[0] < |s.snapshots| && s.temp == Rows(s.snapshots[s.queue[0]])
    ensures WriterMoves(s, DoRename(s, ok), Rename(ok)) && FileMoves(s, DoRename(s, ok), Rename(ok))
  {
  }

  lemma QueuedWritesExist(s: State, initial: File)
    requires WritesOk(s, initial)
    ensures s.queue != [] ==> s.queue[0] < |s.snapshots|
    ensures s.staged ==> s.queue != [] && s.temp == Rows(s.snapshots[s.queue[0]])
  {
  }

  lemma StepMovesWriter(size: seq<Row> -> nat, s: State, initial: File, e: Event)
    requires WritesOk(s, initial)
    ensures WriterMoves(s, Step(size, s, e), e) && FileMoves(s, Step(size, s, e), e)
  {
    QueuedWritesExist(s, initial);
    match e
    case WriteTemp(ok) => TempMoves(s, ok);
    case Rename(ok) => RenameMoves(s, ok);
    case Crash =>
    case _ => StepIsMemoryStep(size, s, e);
  }

  /** In every reachable state the first write of the queue ends, and the file changes, exactly when its
      temporary file fails or its rename is tried; only a rename that succeeds brings it into the file. */
  lemma WriterExactly(size: seq<Row> -> nat, file: File, nextId: RunId, past: set<RunId>, events: seq<Event>, e: Event)
    requires GoodFile(file, past, nextId)
    ensures var s := Run(size, Boot(file, nextId, past), events);
            WriterMoves(s, Step(size, s, e), e) && FileMoves(s, Step(size, s, e), e)
  {
    RunKeepsWrites(size, file, nextId, past, events);
    StepMovesWriter(size, Run(size, Boot(file, nextId, past), events), file, e);
  }

  // ------------------------------------------------------------- asking and loading

  /** Letters, digits, `_` and `-`, at least one and at most 200 of them. */
  ghost predicate IsStackName(stack: StackName) {
    0 < |stack| <= 200 && forall i | 0 <= i < |stack| :: 'a' <= stack[i] <= 'z' || stack[i] in "0123456789_-"
  }

  lemma NameCharacter(c: char)
    ensures '0' <= c <= '9' || c == '_' || c == '-' <==> c in "0123456789_-"
  {
    var others := "0123456789_-";
    if '0' <= c <= '9' {
      assert others[c as int - '0' as int] == c;
    }
    assert others[10] == '_' && others[11] == '-';
  }

  lemma ValidNameMeans(stack: StackName)
    ensures ValidName(stack) <==> IsStackName(stack)
  {
    forall i | 0 <= i < |stack|
      ensures stack[i] in stack && ('0' <= stack[i] <= '9' || stack[i] == '_' || stack[i] == '-' <==> stack[i] in "0123456789_-")
    {
      NameCharacter(stack[i]);
    }
  }

  /** A run is reserved exactly for a stack of a valid name on which none is in progress. */
  lemma ReservesExactly(size: seq<Row> -> nat, s: State, call: CallId, stack: StackName, saved: bool, expected: Option<RunId>)
    requires Core(s) && call !in s.calls
    ensures var t := Step(size, s, Reserve(call, stack, saved, expected));
            && (call in t.calls <==> IsStackName(stack) && forall k | k in s.calls :: s.calls[k].stack != stack)
            && t.calls - {call} == s.calls
  {
    ValidNameMeans(stack);
  }

  lemma NewestRows(rows: seq<Row>)
    requires DistinctStacks(rows) && forall row | row in rows :: ValidName(row.stack)
    ensures |Last100(rows)| == (if |rows| > 100 then 100 else |rows|) && Last100(rows) == rows[|rows| - |Last100(rows)|..]
    ensures DistinctStacks(Last100(rows)) && forall row | row in Last100(rows) :: ValidName(row.stack)
  {
  }

  lemma NewestReload(rows: seq<Row>)
    requires DistinctStacks(rows) && forall row | row in rows :: ValidName(row.stack)
    ensures LoadRows(Last100(rows)) == ReopenAll(Last100(rows))
  {
    NewestRows(rows);
    LoadKeepsAll(Last100(rows));
  }

  lemma LoadsNewest(size: seq<Row> -> nat, s: State)
    requires s.load == NotLoaded && s.file.Rows? && size(s.file.rows) <= MAX_FILE
    ensures Step(size, s, Load).records == LoadRows(Last100(s.file.rows))
  {
  }

  /** Of a journal with one row per stack the last hundred rows are shown, in order, those that were
      running as interrupted. */
  lemma LoadShowsTheNewest(size: seq<Row> -> nat, s: State, rows: seq<Row>, newest: seq<Row>)
    requires s.load == NotLoaded && s.file == Rows(rows) && size(rows) <= 1024 * 1024
    requires DistinctStacks(rows) && forall row | row in rows :: ValidName(row.stack)
    requires newest == if |rows| > 100 then rows[|rows| - 100..] else rows
    ensures Step(size, s, Load).records == ReopenAll(newest)
  {
    NewestRows(rows);
    assert newest == Last100(rows);
    NewestReload(rows);
    LoadsNewest(size, s);
  }
}
