/** Rows of the deployment journal and the ordered, bounded table that holds them
    (backend/deployment-progress.ts, lines 5-20, 51-68, 79-83, 126-179). */
module DeploymentRows {
  import opened Common

  type StackName = string
  type RunId = nat
  type Time = int

  datatype Phase = Save | Prerequisites | Compose | Metadata

  datatype Outcome = Running | Completed | Failed | Interrupted

  datatype PhaseStep = PhaseStep(phase: Phase, startedAt: Time, finishedAt: Option<Time>)

  /** `output` is kept in memory only. */
  datatype Row = Row(id: RunId, stack: StackName, state: Outcome, phase: Phase, saved: bool, steps: seq<PhaseStep>, output: Option<string>)

  const MAX_OUTPUT := 65536
  const MAX_RECORDS := 100

  /** `/^[a-z0-9_-]{1,200}$/` */
  predicate ValidName(stack: StackName) {
    1 <= |stack| <= 200 && forall c | c in stack :: 'a' <= c <= 'z' || '0' <= c <= '9' || c == '_' || c == '-'
  }

  // ------------------------------------------------------------------ one row

  /** `s.slice(-65536)` */
  function Tail(s: string): string {
    if |s| <= MAX_OUTPUT then s else s[|s| - MAX_OUTPUT..]
  }

  function Text(row: Row): string {
    if row.output.Some? then row.output.value else ""
  }

  function NewRow(id: RunId, stack: StackName, saved: bool): Row {
    Row(id, stack, Running, if saved then Prerequisites else Save, saved, [], Some(""))
  }

  function CloseLast(steps: seq<PhaseStep>, now: Time): seq<PhaseStep> {
    if steps == [] then [] else steps[|steps| - 1 := steps[|steps| - 1].(finishedAt := Some(now))]
  }

  predicate SamePhase(row: Row, phase: Phase) {
    row.steps != [] && row.steps[|row.steps| - 1].phase == phase
  }

  function ReportRow(row: Row, phase: Phase, now: Time): Row {
    if SamePhase(row, phase) then row
    else row.(steps := CloseLast(row.steps, now) + [PhaseStep(phase, now, None)], phase := phase, saved := row.saved || phase != Save)
  }

  function EmitRow(row: Row, chunk: string): Row {
    row.(output := Some(Tail(Text(row) + chunk)))
  }

  function CompleteRow(row: Row, now: Time): Row {
    row.(state := Completed, steps := CloseLast(row.steps, now))
  }

  function FailRow(row: Row, error: string): Row {
    row.(state := Failed, output := Some(Tail(Text(row) + "\n" + error)))
  }

  function Ended(row: Row, outcome: Result<Time, string>): Row {
    match outcome
    case Ok(now) => CompleteRow(row, now)
    case Err(error) => FailRow(row, error)
  }

  /** Consecutive phases differ and every step but the last is closed; a completed row has none open. */
  ghost predicate RowOk(row: Row) {
    && (forall i | 0 <= i < |row.steps| - 1 :: row.steps[i].phase != row.steps[i + 1].phase && row.steps[i].finishedAt.Some?)
    && (row.state == Completed ==> row.steps != [] && row.steps[|row.steps| - 1].finishedAt.Some?)
    && (row.state == Running ==> row.steps == [] || row.steps[|row.steps| - 1].finishedAt.None?)
    && (forall i | 0 <= i < |row.steps| && row.steps[i].phase != Save :: row.saved)
    && |Text(row)| <= MAX_OUTPUT
  }

  lemma ReportKeepsOk(row: Row, phase: Phase, now: Time)
    requires RowOk(row) && row.state == Running
    ensures RowOk(ReportRow(row, phase, now)) && ReportRow(row, phase, now).state == Running
    ensures row.saved ==> ReportRow(row, phase, now).saved
    ensures ReportRow(row, phase, now).steps != []
  {
  }

  lemma EmitKeepsOk(row: Row, chunk: string)
    requires RowOk(row)
    ensures RowOk(EmitRow(row, chunk))
  {
  }

  lemma EndKeepsOk(row: Row, now: Time, error: string)
    requires RowOk(row) && row.state == Running && row.steps != []
    ensures RowOk(CompleteRow(row, now)) && RowOk(FailRow(row, error))
  {
  }

  // -------------------------------------------------------- the life of one row

  datatype Op = Report(phase: Phase, now: Time) | Emit(chunk: string)

  function Apply(row: Row, op: Op): Row {
    match op
    case Report(phase, now) => ReportRow(row, phase, now)
    case Emit(chunk) => EmitRow(row, chunk)
  }

  function ApplyAll(row: Row, ops: seq<Op>): Row {
    if ops == [] then row else Apply(ApplyAll(row, ops[..|ops| - 1]), ops[|ops| - 1])
  }

  /** Everything the operations emitted. */
  function Emitted(ops: seq<Op>): string {
    if ops == [] then ""
    else Emitted(ops[..|ops| - 1]) + if ops[|ops| - 1].Emit? then ops[|ops| - 1].chunk else ""
  }

  lemma TailAppend(s: string, t: string)
    ensures Tail(Tail(s) + t) == Tail(s + t)
  {
    if |s| > MAX_OUTPUT {
      var cut := |s| - MAX_OUTPUT;
      assert Tail(s) + t == (s + t)[cut..];
      if |(s + t)[cut..]| > MAX_OUTPUT {
        assert (s + t)[cut..][|s + t| - cut - MAX_OUTPUT..] == (s + t)[|s + t| - MAX_OUTPUT..];
      }
    }
  }

  /** `Tail` is the longest suffix of at most 65536 characters. */
  lemma TailMeans(s: string)
    ensures |Tail(s)| == (if |s| <= 65536 then |s| else 65536)
    ensures s == s[..|s| - |Tail(s)|] + Tail(s)
  {
  }

  /** The reported phases without immediate repetitions, with the times of the reports kept. */
  function Reported(ops: seq<Op>): seq<(Phase, Time)> {
    if ops == [] then []
    else
      var front, last := Reported(ops[..|ops| - 1]), ops[|ops| - 1];
      if last.Emit? || (front != [] && front[|front| - 1].0 == last.phase) then front else front + [(last.phase, last.now)]
  }

  ghost predicate PastSaving(reported: seq<(Phase, Time)>) {
    exists i :: 0 <= i < |reported| && reported[i].0 != Save
  }

  lemma PastSavingAppend(reported: seq<(Phase, Time)>, phase: Phase, now: Time)
    ensures PastSaving(reported + [(phase, now)]) <==> PastSaving(reported) || phase != Save
  {
    if phase != Save {
      assert (reported + [(phase, now)])[|reported|].0 != Save;
    }
    if i :| 0 <= i < |reported| && reported[i].0 != Save {
      assert (reported + [(phase, now)])[i].0 != Save;
    }
  }

  /** One step per report, which starts when it is made and ends when the next one is. */
  ghost predicate StepsTell(steps: seq<PhaseStep>, reported: seq<(Phase, Time)>) {
    && |steps| == |reported|
    && forall i | 0 <= i < |steps| ::
         && steps[i].phase == reported[i].0 && steps[i].startedAt == reported[i].1
         && steps[i].finishedAt == if i + 1 < |reported| then Some(reported[i + 1].1) else None
  }

  /** What a running row tells about the operations so far. */
  ghost predicate Records(row: Row, saved: bool, reported: seq<(Phase, Time)>, emitted: string) {
    && RowOk(row) && row.state == Running
    && Text(row) == Tail(emitted)
    && StepsTell(row.steps, reported)
    && row.phase == (if reported != [] then reported[|reported| - 1].0 else if saved then Prerequisites else Save)
    && (row.saved <==> saved || PastSaving(reported))
  }

  lemma StepsAppend(steps: seq<PhaseStep>, reported: seq<(Phase, Time)>, phase: Phase, now: Time)
    requires StepsTell(steps, reported)
    ensures StepsTell(CloseLast(steps, now) + [PhaseStep(phase, now, None)], reported + [(phase, now)])
  {
    var next, told := CloseLast(steps, now) + [PhaseStep(phase, now, None)], reported + [(phase, now)];
    forall i | 0 <= i < |next|
      ensures next[i].phase == told[i].0 && next[i].startedAt == told[i].1
      ensures next[i].finishedAt == if i + 1 < |told| then Some(told[i + 1].1) else None
    {
      if i + 1 < |steps| {
        assert next[i] == steps[i] && told[i + 1] == reported[i + 1];
      }
    }
  }

  lemma ReportRecords(row: Row, saved: bool, reported: seq<(Phase, Time)>, emitted: string, phase: Phase, now: Time)
    requires Records(row, saved, reported, emitted)
    ensures Records(ReportRow(row, phase, now), saved,
                    if reported != [] && reported[|reported| - 1].0 == phase then reported else reported + [(phase, now)], emitted)
  {
    ReportKeepsOk(row, phase, now);
    if !SamePhase(row, phase) {
      PastSavingAppend(reported, phase, now);
      StepsAppend(row.steps, reported, phase, now);
    }
  }

  lemma EmitRecords(row: Row, saved: bool, reported: seq<(Phase, Time)>, emitted: string, chunk: string)
    requires Records(row, saved, reported, emitted)
    ensures Records(EmitRow(row, chunk), saved, reported, emitted + chunk)
  {
    EmitKeepsOk(row, chunk);
    TailAppend(emitted, chunk);
  }

  /** A new row after any reports and output: the output is the tail of everything emitted, the
      steps are the reported phases without immediate repetitions, and `saved` never reverts. */
  lemma {:induction false} RowHistory(id: RunId, stack: StackName, saved: bool, ops: seq<Op>)
    ensures Records(ApplyAll(NewRow(id, stack, saved), ops), saved, Reported(ops), Emitted(ops))
  {
    if ops == [] {
    } else {
      var front, last := ops[..|ops| - 1], ops[|ops| - 1];
      RowHistory(id, stack, saved, front);
      var before := ApplyAll(NewRow(id, stack, saved), front);
      if last.Report? {
        ReportRecords(before, saved, Reported(front), Emitted(front), last.phase, last.now);
        assert Emitted(front) + "" == Emitted(front);
      } else {
        EmitRecords(before, saved, Reported(front), Emitted(front), last.chunk);
      }
    }
  }

  /** A run that returns is completed at that moment and loses nothing else; one that throws is
      failed, with the error at the end of its output. */
  lemma EndedMeans(row: Row, saved: bool, reported: seq<(Phase, Time)>, emitted: string, outcome: Result<Time, string>)
    requires Records(row, saved, reported, emitted) && reported != []
    ensures var ended := Ended(row, outcome);
            && ended.id == row.id && ended.stack == row.stack && ended.saved == row.saved && ended.phase == row.phase
            && (match outcome
                case Ok(now) =>
                  && ended.state == Completed && Text(ended) == Tail(emitted)
                  && ended.steps == row.steps[..|row.steps| - 1]
                                    + [PhaseStep(reported[|reported| - 1].0, reported[|reported| - 1].1, Some(now))]
                case Err(error) =>
                  ended.state == Failed && Text(ended) == Tail(emitted + "\n" + error) && ended.steps == row.steps)
  {
    if outcome.Ok? {
      var n := |row.steps| - 1;
      assert row.steps[n] == PhaseStep(reported[n].0, reported[n].1, None);
      assert Ended(row, outcome).steps == row.steps[..n] + [row.steps[n].(finishedAt := Some(outcome.value))];
    } else {
      TailAppend(emitted, "\n" + outcome.error);
      assert Tail(emitted) + "\n" + outcome.error == Tail(emitted) + ("\n" + outcome.error);
      assert emitted + "\n" + outcome.error == emitted + ("\n" + outcome.error);
    }
  }

  // ------------------------------------------------------------------ the table

  ghost predicate DistinctStacks(rows: seq<Row>) {
    forall i, j | 0 <= i < j < |rows| :: rows[i].stack != rows[j].stack
  }

  function Find(rows: seq<Row>, stack: StackName): (r: Option<Row>)
    ensures r.Some? ==> r.value in rows && r.value.stack == stack
    ensures r.None? ==> forall row | row in rows :: row.stack != stack
  {
    if rows == [] then None
    else if rows[0].stack == stack then Some(rows[0])
    else Find(rows[1..], stack)
  }

  lemma FindUnique(rows: seq<Row>, row: Row)
    requires DistinctStacks(rows) && row in rows
    ensures Find(rows, row.stack) == Some(row)
  {
    var i :| 0 <= i < |rows| && rows[i] == row;
    var found := Find(rows, row.stack).value;
    var j :| 0 <= j < |rows| && rows[j] == found;
  }

  function Delete(rows: seq<Row>, stack: StackName): (r: seq<Row>)
    ensures forall row :: row in r <==> row in rows && row.stack != stack
    ensures DistinctStacks(rows) ==> DistinctStacks(r)
    ensures |r| <= |rows|
    ensures (exists row :: row in rows && row.stack == stack) ==> |r| < |rows|
  {
    if rows == [] then []
    else
      var rest := Delete(rows[1..], stack);
      assert rows == [rows[0]] + rows[1..];
      if rows[0].stack == stack then rest else [rows[0]] + rest
  }

  /** Update a row in place. */
  function Replace(rows: seq<Row>, row: Row): (r: seq<Row>)
    ensures |r| == |rows|
    ensures forall i | 0 <= i < |rows| :: r[i] == if rows[i].stack == row.stack then row else rows[i]
  {
    seq(|rows|, i requires 0 <= i < |rows| => if rows[i].stack == row.stack then row else rows[i])
  }

  lemma ReplaceMembers(rows: seq<Row>, row: Row)
    ensures forall x | x in Replace(rows, row) :: x == row || (x in rows && x.stack != row.stack)
    ensures forall x | x in rows && x.stack != row.stack :: x in Replace(rows, row)
    ensures (exists x :: x in rows && x.stack == row.stack) ==> row in Replace(rows, row)
    ensures DistinctStacks(rows) ==> DistinctStacks(Replace(rows, row))
  {
    forall x | x in rows && x.stack != row.stack ensures x in Replace(rows, row) {
      var i :| 0 <= i < |rows| && rows[i] == x;
      assert Replace(rows, row)[i] == x;
    }
    if x :| x in rows && x.stack == row.stack {
      var i :| 0 <= i < |rows| && rows[i] == x;
      assert Replace(rows, row)[i] == row;
    }
  }

  function Strip(row: Row): Row {
    row.(output := None)
  }

  function Snapshot(rows: seq<Row>): (r: seq<Row>)
    ensures |r| == |rows| && forall i | 0 <= i < |rows| :: r[i] == Strip(rows[i])
  {
    seq(|rows|, i requires 0 <= i < |rows| => Strip(rows[i]))
  }

  /** A snapshot shows every row, without its output. */
  lemma SnapshotMeans(rows: seq<Row>, i: nat)
    requires i < |rows|
    ensures var r, row := Snapshot(rows)[i], rows[i];
            && r.id == row.id && r.stack == row.stack && r.state == row.state && r.phase == row.phase && r.saved == row.saved
            && r.steps == row.steps && r.output == None
  {
  }

  // ------------------------------------------------------------------- eviction

  /** First row whose stack is not active. */
  function Removable(rows: seq<Row>, active: set<StackName>): (r: Option<StackName>)
    ensures r.Some? ==> r.value !in active && exists row :: row in rows && row.stack == r.value
    ensures r.None? ==> forall row | row in rows :: row.stack in active
  {
    if rows == [] then None
    else if rows[0].stack !in active then
      assert rows[0] in rows;
      Some(rows[0].stack)
    else
      var r := Removable(rows[1..], active);
      assert rows == [rows[0]] + rows[1..];
      r
  }

  /** Drop the oldest inactive rows until the bound holds; `ok` is false when all rows left are active. */
  function Evict(rows: seq<Row>, active: set<StackName>): (r: (seq<Row>, bool))
    ensures forall row | row in r.0 :: row in rows
    ensures forall row | row in rows && row.stack in active :: row in r.0
    ensures DistinctStacks(rows) ==> DistinctStacks(r.0)
    ensures r.1 ==> |r.0| <= MAX_RECORDS
    ensures !r.1 ==> |r.0| > MAX_RECORDS && forall row | row in r.0 :: row.stack in active
    decreases |rows|
  {
    if |rows| <= MAX_RECORDS then (rows, true)
    else
      match Removable(rows, active)
      case None => (rows, false)
      case Some(stack) => Evict(Delete(rows, stack), active)
  }

  method EvictLoop(rows: seq<Row>, active: set<StackName>) returns (kept: seq<Row>, ok: bool)
    ensures (kept, ok) == Evict(rows, active)
  {
    kept := rows;
    while |kept| > MAX_RECORDS
      invariant Evict(kept, active) == Evict(rows, active)
      decreases |kept|
    {
      var removable := Removable(kept, active);
      if removable.None? {
        return kept, false;
      }
      kept := Delete(kept, removable.value);
    }
    return kept, true;
  }

  function StacksOf(rows: seq<Row>): (r: set<StackName>)
    ensures forall s :: s in r <==> exists row :: row in rows && row.stack == s
  {
    set row | row in rows :: row.stack
  }

  lemma LastStackIsNew(rows: seq<Row>)
    requires DistinctStacks(rows) && rows != []
    ensures forall row | row in rows[..|rows| - 1] :: row.stack != rows[|rows| - 1].stack
  {
    forall row | row in rows[..|rows| - 1] ensures row.stack != rows[|rows| - 1].stack {
      var i :| 0 <= i < |rows| - 1 && rows[i] == row;
    }
  }

  lemma {:induction false} StackCount(rows: seq<Row>)
    requires DistinctStacks(rows)
    ensures |StacksOf(rows)| == |rows|
  {
    if rows == [] {
    } else {
      var front, last := rows[..|rows| - 1], rows[|rows| - 1];
      assert rows == front + [last];
      StackCount(front);
      assert StacksOf(rows) == StacksOf(front) + {last.stack};
      LastStackIsNew(rows);
    }
  }

  /** Eviction fails exactly when more than 100 of the rows belong to active stacks. */
  lemma EvictionFailsExactly(rows: seq<Row>, active: set<StackName>)
    requires DistinctStacks(rows)
    ensures Evict(rows, active).1 <==> |StacksOf(rows) * active| <= MAX_RECORDS
  {
    var (kept, ok) := Evict(rows, active);
    StackCount(kept);
    assert StacksOf(rows) * active <= StacksOf(kept);
    if ok {
      SubsetCardinality(StacksOf(rows) * active, StacksOf(kept));
    } else {
      assert StacksOf(kept) == StacksOf(rows) * active;
    }
  }

  lemma {:induction false} NothingToDelete(rows: seq<Row>, stack: StackName)
    requires forall i | 0 <= i < |rows| :: rows[i].stack != stack
    ensures Delete(rows, stack) == rows
  {
    if rows == [] {
    } else {
      NothingToDelete(rows[1..], stack);
    }
  }

  lemma DeleteHead(head: Row, rest: seq<Row>, stack: StackName)
    ensures Delete([head] + rest, stack) == if head.stack == stack then Delete(rest, stack) else [head] + Delete(rest, stack)
  {
    assert ([head] + rest)[1..] == rest;
  }

  lemma {:induction false} DeleteBetween(front: seq<Row>, row: Row, back: seq<Row>)
    requires forall i | 0 <= i < |front| :: front[i].stack != row.stack
    requires forall i | 0 <= i < |back| :: back[i].stack != row.stack
    ensures Delete(front + [row] + back, row.stack) == front + back
  {
    if front == [] {
      assert front + [row] + back == [row] + back && front + back == back;
      DeleteHead(row, back, row.stack);
      NothingToDelete(back, row.stack);
    } else {
      var head, rest := front[0], front[1..];
      assert front + [row] + back == [head] + (rest + [row] + back) && front + back == [head] + (rest + back);
      DeleteHead(head, rest + [row] + back, row.stack);
      DeleteBetween(rest, row, back);
    }
  }

  lemma {:induction false} RemovableIsFirst(rows: seq<Row>, active: set<StackName>) returns (k: nat)
    requires Removable(rows, active).Some?
    ensures k < |rows| && Removable(rows, active) == Some(rows[k].stack) && rows[k].stack !in active
    ensures forall i | 0 <= i < k :: rows[i].stack in active
  {
    if rows[0].stack !in active {
      return 0;
    }
    k := RemovableIsFirst(rows[1..], active);
    k := k + 1;
  }

  /** Once an inactive row is kept, so is every row after it. */
  ghost predicate OldestFirst(rows: seq<Row>, active: set<StackName>, kept: seq<Row>) {
    forall i, j | 0 <= i < j < |rows| && rows[i].stack !in active && rows[i] in kept :: rows[j] in kept
  }

  lemma OldestFirstBefore(front: seq<Row>, row: Row, back: seq<Row>, active: set<StackName>, kept: seq<Row>)
    requires OldestFirst(front + back, active, kept) && row !in kept
    requires forall i | 0 <= i < |front| :: front[i].stack in active
    ensures OldestFirst(front + [row] + back, active, kept)
  {
    var all, rest := front + [row] + back, front + back;
    forall i, j | 0 <= i < j < |all| && all[i].stack !in active && all[i] in kept ensures all[j] in kept {
      assert i > |front|;
      assert rest[i - 1] == all[i] && rest[j - 1] == all[j];
    }
  }

  /** One round of eviction, and its effect on the two claims below. */
  lemma EvictOne(rows: seq<Row>, active: set<StackName>) returns (rest: seq<Row>)
    requires DistinctStacks(rows) && |rows| > MAX_RECORDS && Removable(rows, active).Some?
    ensures |rest| == |rows| - 1 && DistinctStacks(rest) && Evict(rows, active) == Evict(rest, active)
    ensures OldestFirst(rest, active, Evict(rest, active).0) ==> OldestFirst(rows, active, Evict(rows, active).0)
  {
    var k := RemovableIsFirst(rows, active);
    var front, row, back := rows[..k], rows[k], rows[k + 1..];
    assert rows == front + [row] + back;
    rest := front + back;
    DeleteBetween(front, row, back);
    EvictStep(rows, active, row, rest);
    if OldestFirst(rest, active, Evict(rest, active).0) {
      OldestFirstBefore(front, row, back, active, Evict(rows, active).0);
    }
  }

  /** Eviction removes the inactive rows that have been in the table longest, and no more than needed. */
  lemma {:induction false} EvictsOldestFirst(rows: seq<Row>, active: set<StackName>)
    requires DistinctStacks(rows)
    ensures OldestFirst(rows, active, Evict(rows, active).0)
    ensures |rows| > MAX_RECORDS && Evict(rows, active).1 ==> |Evict(rows, active).0| == MAX_RECORDS
    decreases |rows|
  {
    if |rows| <= MAX_RECORDS || Removable(rows, active).None? {
    } else {
      var rest := EvictOne(rows, active);
      EvictsOldestFirst(rest, active);
    }
  }

  lemma EvictStep(rows: seq<Row>, active: set<StackName>, row: Row, rest: seq<Row>)
    requires DistinctStacks(rows) && |rows| > MAX_RECORDS && Removable(rows, active) == Some(row.stack)
    requires rest == Delete(rows, row.stack)
    ensures Evict(rows, active) == Evict(rest, active) && DistinctStacks(rest) && row !in Evict(rows, active).0
  {
  }

  // -------------------------------------------------------------------- loading

  function Last100(rows: seq<Row>): seq<Row> {
    if |rows| <= MAX_RECORDS then rows else rows[|rows| - MAX_RECORDS..]
  }

  /** A stopped backend cannot know how an unfinished run ended. */
  function Reopened(row: Row): Row {
    row.(output := None, state := if row.state == Running then Interrupted else row.state)
  }

  /** `records.set(row.stack, row)` */
  function Put(rows: seq<Row>, row: Row): seq<Row> {
    if Find(rows, row.stack).Some? then Replace(rows, row) else rows + [row]
  }

  function LoadRows(rows: seq<Row>): seq<Row> {
    if rows == [] then []
    else
      var front, last := LoadRows(rows[..|rows| - 1]), rows[|rows| - 1];
      if ValidName(last.stack) then Put(front, Reopened(last)) else front
  }

  function ReopenAll(rows: seq<Row>): (r: seq<Row>)
    ensures |r| == |rows| && forall i | 0 <= i < |rows| :: r[i] == Reopened(rows[i])
  {
    seq(|rows|, i requires 0 <= i < |rows| => Reopened(rows[i]))
  }

  lemma LastIsNew(rows: seq<Row>)
    requires DistinctStacks(rows) && rows != []
    ensures Find(ReopenAll(rows[..|rows| - 1]), rows[|rows| - 1].stack).None?
  {
    var front, last := rows[..|rows| - 1], rows[|rows| - 1];
    forall row | row in ReopenAll(front) ensures row.stack != last.stack {
      var i :| 0 <= i < |front| && ReopenAll(front)[i] == row;
      assert rows[i].stack != rows[|rows| - 1].stack;
    }
  }

  /** Loading a journal this store wrote gives back every row, unfinished ones as interrupted. */
  lemma {:induction false} LoadKeepsAll(rows: seq<Row>)
    requires DistinctStacks(rows) && forall row | row in rows :: ValidName(row.stack)
    ensures LoadRows(rows) == ReopenAll(rows)
  {
    if rows == [] {
    } else {
      var front, last := rows[..|rows| - 1], rows[|rows| - 1];
      assert rows == front + [last];
      LoadKeepsAll(front);
      LastIsNew(rows);
      assert ReopenAll(rows) == ReopenAll(front) + [Reopened(last)];
    }
  }

  lemma PutMembers(rows: seq<Row>, row: Row)
    requires DistinctStacks(rows)
    ensures DistinctStacks(Put(rows, row)) && |Put(rows, row)| <= |rows| + 1
    ensures forall r | r in Put(rows, row) :: r == row || r in rows
  {
    ReplaceMembers(rows, row);
  }

  /** Whatever the file holds, the loaded table is well formed and made of reopened rows of the file. */
  lemma {:induction false} LoadIsWellFormed(rows: seq<Row>)
    ensures DistinctStacks(LoadRows(rows)) && |LoadRows(rows)| <= |rows|
    ensures forall row | row in LoadRows(rows) :: ValidName(row.stack) && exists r :: r in rows && row == Reopened(r)
  {
    if rows == [] {
    } else {
      var front, last := rows[..|rows| - 1], rows[|rows| - 1];
      LoadIsWellFormed(front);
      PutMembers(LoadRows(front), Reopened(last));
      forall row | row in LoadRows(rows) ensures ValidName(row.stack) && exists r :: r in rows && row == Reopened(r) {
        if row in LoadRows(front) {
          var r :| r in front && row == Reopened(r);
          assert r in rows;
        } else {
          assert row == Reopened(last) && last in rows;
        }
      }
    }
  }
}
