/** Loading of native catalogue sources (backend/catalog-sources.ts, lines 96-118 and 182-317):
    four cooperative workers per source share one cursor, and at most two sources load at once. */
module CatalogWorkers {
  import opened Common

  // ------------------------------------------------------- the workers of one source

  const WORKERS := 4

  /** `Placeholder` is the entry built from the file list, `Parsed` the one read from its file. */
  datatype Content = Placeholder | Parsed

  datatype Entry = Entry(index: nat, content: Content, failed: bool)

  /** A worker is at its loop head, waits for the file it claimed, or has left the loop. */
  datatype Worker = AtHead | Fetching(file: nat) | Done

  datatype Job = Job(items: seq<Entry>, cursor: nat, loaded: nat, failed: nat, workers: seq<Worker>, fetched: seq<nat>)

  datatype JobEvent =
    | Take(worker: nat, timedOut: bool)
    | Reply(worker: nat, ok: bool)   // `ok`: the file arrived and could be parsed

  function NewJob(files: nat): Job {
    Job(seq(files, i requires 0 <= i => Entry(i, Placeholder, false)), 0, 0, 0, seq(WORKERS, _ => AtHead), [])
  }

  predicate Enabled(j: Job, e: JobEvent) {
    e.worker < |j.workers| && if e.Take? then j.workers[e.worker].AtHead? else j.workers[e.worker].Fetching?
  }

  function MarkFailed(items: seq<Entry>, i: nat): seq<Entry>
    requires i < |items|
  {
    items[i := items[i].(failed := true)]
  }

  function StepJob(j: Job, e: JobEvent): Job
    requires e.worker < |j.workers| && j.cursor <= |j.items|
    requires j.workers[e.worker].Fetching? ==> j.workers[e.worker].file < |j.items|
  {
    match e
    case Take(w, timedOut) =>
      if !j.workers[w].AtHead? then j
      else if j.cursor >= |j.items| then j.(workers := j.workers[w := Done])
      else if timedOut then
        j.(cursor := j.cursor + 1, items := MarkFailed(j.items, j.cursor), failed := j.failed + 1, loaded := j.loaded + 1)
      else
        j.(cursor := j.cursor + 1, workers := j.workers[w := Fetching(j.cursor)], fetched := j.fetched + [j.cursor])
    case Reply(w, ok) =>
      if !j.workers[w].Fetching? then j
      else
        var i := j.workers[w].file;
        var freed := j.(loaded := j.loaded + 1, workers := j.workers[w := AtHead]);
        if ok then freed.(items := j.items[i := Entry(i, Parsed, false)])
        else freed.(items := MarkFailed(j.items, i), failed := j.failed + 1)
  }

  /** The fields `result.items/loaded/failed` and the shared `cursor`, updated by the workers. */
  class SourceJob {
    var items: seq<Entry>
    var cursor: nat
    var loaded: nat
    var failed: nat
    var workers: seq<Worker>
    var fetched: seq<nat>   // requests made to the repository, in order

    function View(): Job
      reads this
    {
      Job(items, cursor, loaded, failed, workers, fetched)
    }

    constructor (files: nat)
      ensures View() == NewJob(files)
    {
      items := seq(files, i requires 0 <= i => Entry(i, Placeholder, false));
      cursor, loaded, failed := 0, 0, 0;
      workers := seq(WORKERS, _ => AtHead);
      fetched := [];
    }

    /** The job of an index that is already loading. */
    constructor Of(job: Job)
      ensures View() == job
    {
      items, cursor, loaded, failed, workers, fetched := job.items, job.cursor, job.loaded, job.failed, job.workers, job.fetched;
    }

    method TakeNext(w: nat, timedOut: bool)
      requires w < |workers| && workers[w].AtHead? && cursor <= |items|
      modifies this
      ensures View() == StepJob(old(View()), Take(w, timedOut))
    {
      if cursor >= |items| {
        workers := workers[w := Done];
        return;
      }
      var index := cursor;
      cursor := cursor + 1;
      if timedOut {
        items := items[index := items[index].(failed := true)];
        failed := failed + 1;
        loaded := loaded + 1;
        return;
      }
      workers := workers[w := Fetching(index)];
      fetched := fetched + [index];
    }

    method Complete(w: nat, ok: bool)
      requires w < |workers| && workers[w].Fetching? && workers[w].file < |items| && cursor <= |items|
      modifies this
      ensures View() == StepJob(old(View()), Reply(w, ok))
    {
      var index := workers[w].file;
      if ok {
        items := items[index := Entry(index, Parsed, false)];
      } else {
        items := items[index := items[index].(failed := true)];
        failed := failed + 1;
      }
      loaded := loaded + 1;
      workers := workers[w := AtHead];
    }
  }

  // ------------------------------------------------------------- conservation

  function InFlight(workers: seq<Worker>): nat {
    if workers == [] then 0
    else InFlight(workers[..|workers| - 1]) + if workers[|workers| - 1].Fetching? then 1 else 0
  }

  function FailedCount(items: seq<Entry>): nat {
    if items == [] then 0
    else FailedCount(items[..|items| - 1]) + if items[|items| - 1].failed then 1 else 0
  }

  ghost predicate Pending(j: Job, i: nat) {
    exists w :: 0 <= w < |j.workers| && j.workers[w] == Fetching(i)
  }

  /** Claimed and no longer in flight means processed: parsed or marked as failed, never both. */
  ghost predicate ItemOk(j: Job, i: nat)
    requires i < |j.items|
  {
    var item := j.items[i];
    && item.index == i
    && (i >= j.cursor || Pending(j, i) ==> item == Entry(i, Placeholder, false))
    && (i < j.cursor && !Pending(j, i) ==> item.content.Parsed? <==> !item.failed)
  }

  ghost predicate Conserved(j: Job) {
    && j.cursor <= |j.items|
    && j.loaded + InFlight(j.workers) == j.cursor
    && j.failed == FailedCount(j.items)
    && (forall i | 0 <= i < |j.items| :: ItemOk(j, i))
    && (forall w | 0 <= w < |j.workers| && j.workers[w].Fetching? :: j.workers[w].file < j.cursor)
    && (forall v, w | 0 <= v < w < |j.workers| && j.workers[v].Fetching? :: j.workers[v] != j.workers[w])
    && (forall w | 0 <= w < |j.workers| && j.workers[w].Done? :: j.cursor == |j.items|)
  }

  /** Files are requested in increasing order, never twice, and only after being claimed. */
  ghost predicate FetchedOnce(j: Job) {
    && (forall a, b | 0 <= a < b < |j.fetched| :: j.fetched[a] < j.fetched[b])
    && (forall a | 0 <= a < |j.fetched| :: j.fetched[a] < j.cursor <= |j.items|)
    && (forall i | 0 <= i < |j.items| && j.items[i].content.Parsed? :: i in j.fetched)
    && (forall w | 0 <= w < |j.workers| && j.workers[w].Fetching? :: j.workers[w].file in j.fetched)
  }

  lemma {:induction false} InFlightUpdate(workers: seq<Worker>, w: nat, x: Worker)
    requires w < |workers|
    ensures InFlight(workers[w := x]) + (if workers[w].Fetching? then 1 else 0)
         == InFlight(workers) + if x.Fetching? then 1 else 0
  {
    var n := |workers| - 1;
    if w < n {
      assert workers[w := x][..n] == workers[..n][w := x];
      InFlightUpdate(workers[..n], w, x);
    } else {
      assert workers[w := x][..n] == workers[..n];
    }
  }

  lemma {:induction false} FailedUpdate(items: seq<Entry>, i: nat, x: Entry)
    requires i < |items|
    ensures FailedCount(items[i := x]) + (if items[i].failed then 1 else 0)
         == FailedCount(items) + if x.failed then 1 else 0
  {
    var n := |items| - 1;
    if i < n {
      assert items[i := x][..n] == items[..n][i := x];
      FailedUpdate(items[..n], i, x);
    } else {
      assert items[i := x][..n] == items[..n];
    }
  }

  lemma {:induction false} NothingFailedYet(items: seq<Entry>)
    requires forall i | 0 <= i < |items| :: !items[i].failed
    ensures FailedCount(items) == 0
  {
    if items == [] {
    } else {
      NothingFailedYet(items[..|items| - 1]);
    }
  }

  lemma {:induction false} NothingInFlight(workers: seq<Worker>)
    requires forall w | 0 <= w < |workers| :: !workers[w].Fetching?
    ensures InFlight(workers) == 0
  {
    if workers == [] {
    } else {
      NothingInFlight(workers[..|workers| - 1]);
    }
  }

  lemma NewJobConserved(files: nat)
    ensures Conserved(NewJob(files)) && FetchedOnce(NewJob(files))
  {
    NothingFailedYet(NewJob(files).items);
    NothingInFlight(NewJob(files).workers);
  }

  lemma TakeConserves(j: Job, w: nat, timedOut: bool)
    requires Conserved(j) && w < |j.workers| && j.workers[w].AtHead?
    ensures Conserved(StepJob(j, Take(w, timedOut)))
  {
    var k := StepJob(j, Take(w, timedOut));
    InFlightUpdate(j.workers, w, k.workers[w]);
    if j.cursor < |j.items| {
      assert ItemOk(j, j.cursor);
      FailedUpdate(j.items, j.cursor, k.items[j.cursor]);
      forall i | 0 <= i < |k.items| ensures ItemOk(k, i) {
        assert ItemOk(j, i);
        PendingAfterUpdate(j, k, w, i);
      }
    } else {
      forall i | 0 <= i < |k.items| ensures ItemOk(k, i) {
        assert ItemOk(j, i);
        PendingAfterUpdate(j, k, w, i);
      }
    }
  }

  /** Replacing one worker only affects whether that worker's files are pending. */
  lemma PendingAfterUpdate(j: Job, k: Job, w: nat, i: nat)
    requires w < |j.workers| == |k.workers| && k.workers == j.workers[w := k.workers[w]]
    requires forall v, u | 0 <= v < u < |j.workers| && j.workers[v].Fetching? :: j.workers[v] != j.workers[u]
    ensures Pending(k, i) <==> k.workers[w] == Fetching(i) || (Pending(j, i) && j.workers[w] != Fetching(i))
  {
    if Pending(j, i) && j.workers[w] != Fetching(i) {
      var v :| 0 <= v < |j.workers| && j.workers[v] == Fetching(i);
      assert k.workers[v] == Fetching(i);
    }
    if Pending(k, i) && k.workers[w] != Fetching(i) {
      var v :| 0 <= v < |k.workers| && k.workers[v] == Fetching(i);
      assert j.workers[v] == Fetching(i);
    }
  }

  lemma ReplyConserves(j: Job, w: nat, ok: bool)
    requires Conserved(j) && w < |j.workers| && j.workers[w].Fetching?
    ensures Conserved(StepJob(j, Reply(w, ok)))
  {
    var file := j.workers[w].file;
    var k := StepJob(j, Reply(w, ok));
    InFlightUpdate(j.workers, w, AtHead);
    assert Pending(j, file) && ItemOk(j, file);
    FailedUpdate(j.items, file, k.items[file]);
    forall i | 0 <= i < |k.items| ensures ItemOk(k, i) {
      assert ItemOk(j, i);
      PendingAfterUpdate(j, k, w, i);
    }
  }

  lemma TakeFetchesOnce(j: Job, w: nat, timedOut: bool)
    requires Conserved(j) && FetchedOnce(j) && w < |j.workers| && j.workers[w].AtHead?
    ensures FetchedOnce(StepJob(j, Take(w, timedOut)))
  {
    var k := StepJob(j, Take(w, timedOut));
    assert forall i | i in j.fetched :: i in k.fetched;
  }

  lemma ReplyFetchesOnce(j: Job, w: nat, ok: bool)
    requires Conserved(j) && FetchedOnce(j) && w < |j.workers| && j.workers[w].Fetching?
    ensures FetchedOnce(StepJob(j, Reply(w, ok)))
  {
    assert StepJob(j, Reply(w, ok)).fetched == j.fetched;
  }

  lemma StepFetchesOnce(j: Job, e: JobEvent)
    requires Conserved(j) && FetchedOnce(j) && Enabled(j, e)
    ensures FetchedOnce(StepJob(j, e))
  {
    match e
    case Take(w, timedOut) => TakeFetchesOnce(j, w, timedOut);
    case Reply(w, ok) => ReplyFetchesOnce(j, w, ok);
  }

  lemma StepConserves(j: Job, e: JobEvent)
    requires Conserved(j) && FetchedOnce(j) && Enabled(j, e)
    ensures var k := StepJob(j, e);
            Conserved(k) && FetchedOnce(k) && |k.items| == |j.items| && |k.workers| == |j.workers|
  {
    StepFetchesOnce(j, e);
    match e
    case Take(w, timedOut) => TakeConserves(j, w, timedOut);
    case Reply(w, ok) => ReplyConserves(j, w, ok);
  }

  ghost predicate Reaches(j: Job, events: seq<JobEvent>, k: Job)
    decreases |events|
  {
    if events == [] then j == k
    else
      var e := events[0];
      && Enabled(j, e) && j.cursor <= |j.items| && (j.workers[e.worker].Fetching? ==> j.workers[e.worker].file < |j.items|)
      && Reaches(StepJob(j, e), events[1..], k)
  }

  /** Every schedule of the workers and every pattern of failures keeps the books balanced. */
  lemma {:induction false} EveryScheduleConserves(j: Job, events: seq<JobEvent>, k: Job)
    requires Conserved(j) && FetchedOnce(j) && Reaches(j, events, k)
    ensures Conserved(k) && FetchedOnce(k) && |k.items| == |j.items| && |k.workers| == |j.workers|
    decreases |events|
  {
    if events == [] {
    } else {
      StepConserves(j, events[0]);
      EveryScheduleConserves(StepJob(j, events[0]), events[1..], k);
    }
  }

  /** When all workers have left their loops, each file has been processed exactly once. */
  lemma FinishedJobIsComplete(files: nat, events: seq<JobEvent>, k: Job)
    requires Reaches(NewJob(files), events, k) && forall w | 0 <= w < |k.workers| :: k.workers[w].Done?
    ensures k.loaded == k.cursor == |k.items| == files && k.failed == FailedCount(k.items)
    ensures forall i | 0 <= i < files :: k.items[i].index == i && (k.items[i].content.Parsed? <==> !k.items[i].failed)
    ensures forall i | 0 <= i < files && !k.items[i].failed :: i in k.fetched
    ensures forall a, b | 0 <= a < b < |k.fetched| :: k.fetched[a] != k.fetched[b]
  {
    NewJobConserved(files);
    EveryScheduleConserves(NewJob(files), events, k);
    NothingInFlight(k.workers);
    assert k.workers[0].Done?;
    forall i | 0 <= i < files ensures k.items[i].index == i && (k.items[i].content.Parsed? <==> !k.items[i].failed) {
      assert ItemOk(k, i);
    }
  }

  function EntriesLeft(j: Job): nat
    requires j.cursor <= |j.items|
  {
    3 * (|j.items| - j.cursor) + 2 * InFlight(j.workers)
  }

  function Unfinished(workers: seq<Worker>): nat {
    if workers == [] then 0
    else Unfinished(workers[..|workers| - 1]) + if workers[|workers| - 1].Done? then 0 else 1
  }

  lemma {:induction false} UnfinishedUpdate(workers: seq<Worker>, w: nat, x: Worker)
    requires w < |workers|
    ensures Unfinished(workers[w := x]) + (if workers[w].Done? then 0 else 1)
         == Unfinished(workers) + if x.Done? then 0 else 1
  {
    var n := |workers| - 1;
    if w < n {
      assert workers[w := x][..n] == workers[..n][w := x];
      UnfinishedUpdate(workers[..n], w, x);
    } else {
      assert workers[w := x][..n] == workers[..n];
    }
  }

  function Measure(j: Job): nat
    requires j.cursor <= |j.items|
  {
    EntriesLeft(j) + Unfinished(j.workers)
  }

  lemma StepMakesProgress(j: Job, e: JobEvent)
    requires Enabled(j, e) && j.cursor <= |j.items| && (j.workers[e.worker].Fetching? ==> j.workers[e.worker].file < |j.items|)
    ensures var k := StepJob(j, e); k.cursor <= |k.items| && Measure(k) < Measure(j)
  {
    var k := StepJob(j, e);
    InFlightUpdate(j.workers, e.worker, k.workers[e.worker]);
    UnfinishedUpdate(j.workers, e.worker, k.workers[e.worker]);
    assert k.workers == j.workers[e.worker := k.workers[e.worker]];
  }

  /** Every step makes progress, so a source finishes after at most `3 * files + WORKERS` steps. */
  lemma {:induction false} SchedulesAreBounded(j: Job, events: seq<JobEvent>, k: Job)
    requires Reaches(j, events, k) && j.cursor <= |j.items|
    ensures k.cursor <= |k.items| && |events| + Measure(k) <= Measure(j)
    decreases |events|
  {
    if events == [] {
    } else {
      StepMakesProgress(j, events[0]);
      SchedulesAreBounded(StepJob(j, events[0]), events[1..], k);
    }
  }

  /** For each time a worker came for a file, whether the ten-minute limit had struck. */
  function TimeOuts(events: seq<JobEvent>): seq<bool> {
    if events == [] then []
    else (if events[0].Take? then [events[0].timedOut] else []) + TimeOuts(events[1..])
  }

  /** The files requested are exactly those claimed in time, whatever the order of the workers. */
  lemma {:induction false} FetchedUnlessTimedOut(j: Job, events: seq<JobEvent>, k: Job)
    requires Reaches(j, events, k) && j.cursor <= |j.items|
    ensures k.cursor == if j.cursor + |TimeOuts(events)| <= |j.items| then j.cursor + |TimeOuts(events)| else |j.items|
    ensures forall i: nat :: i in k.fetched <==>
              i in j.fetched || (j.cursor <= i < k.cursor && !TimeOuts(events)[i - j.cursor])
    decreases |events|
  {
    if events == [] {
    } else {
      var e, rest := events[0], events[1..];
      var next := StepJob(j, e);
      FetchedUnlessTimedOut(next, rest, k);
      if e.Take? {
        assert TimeOuts(events) == [e.timedOut] + TimeOuts(rest);
        assert next.cursor == if j.cursor < |j.items| then j.cursor + 1 else j.cursor;
      } else {
        assert TimeOuts(events) == TimeOuts(rest);
      }
    }
  }

  // ---------------------------------------------------------- the fate of one file

  /** The file of entry `i` is answered, or given up when a worker comes for it too late. */
  ghost predicate Settles(j: Job, e: JobEvent, i: nat)
    requires e.worker < |j.workers|
  {
    (e.Reply? && j.workers[e.worker] == Fetching(i)) || (e.Take? && i == j.cursor < |j.items| && e.timedOut)
  }

  /** Whether the file of entry `i` was read when it was settled; None while it is not. */
  ghost function Settled(j: Job, events: seq<JobEvent>, k: Job, i: nat): Option<bool>
    requires Reaches(j, events, k)
    decreases |events|
  {
    if events == [] then None
    else if Settles(j, events[0], i) then Some(events[0].Reply? && events[0].ok)
    else Settled(StepJob(j, events[0]), events[1..], k, i)
  }

  ghost predicate Open(j: Job, i: nat) {
    i >= j.cursor || Pending(j, i)
  }

  lemma StepSettles(j: Job, e: JobEvent, i: nat)
    requires Conserved(j) && Enabled(j, e) && i < |j.items| == |StepJob(j, e).items| && Open(j, i)
    ensures var next := StepJob(j, e);
            if Settles(j, e, i) then
              !Open(next, i) && next.items[i] == Entry(i, if e.Reply? && e.ok then Parsed else Placeholder, !(e.Reply? && e.ok))
            else Open(next, i)
  {
    var next := StepJob(j, e);
    assert ItemOk(j, i);
    PendingAfterUpdate(j, next, e.worker, i);
  }

  /** A settled entry stays as it is. */
  lemma {:induction false} SettledStays(j: Job, events: seq<JobEvent>, k: Job, i: nat)
    requires Conserved(j) && FetchedOnce(j) && Reaches(j, events, k) && i < j.cursor && !Pending(j, i)
    ensures i < |k.items| && k.items[i] == j.items[i]
    decreases |events|
  {
    if events == [] {
    } else {
      var e := events[0];
      var next := StepJob(j, e);
      StepConserves(j, e);
      PendingAfterUpdate(j, next, e.worker, i);
      SettledStays(next, events[1..], k, i);
    }
  }

  /** An entry is parsed exactly when its file was read, and failed exactly when its file was not read
      or not even requested in time; until then it is the placeholder. */
  lemma {:induction false} EntryFollowsItsFile(j: Job, events: seq<JobEvent>, k: Job, i: nat)
    requires Conserved(j) && FetchedOnce(j) && Reaches(j, events, k) && i < |j.items| && Open(j, i)
    ensures i < |k.items| && k.items[i].index == i
    ensures k.items[i].content.Parsed? <==> Settled(j, events, k, i) == Some(true)
    ensures k.items[i].failed <==> Settled(j, events, k, i) == Some(false)
    decreases |events|
  {
    if events == [] {
      assert ItemOk(j, i);
    } else {
      var e, rest := events[0], events[1..];
      var next := StepJob(j, e);
      StepConserves(j, e);
      StepSettles(j, e, i);
      if Settles(j, e, i) {
        SettledStays(next, rest, k, i);
      } else {
        EntryFollowsItsFile(next, rest, k, i);
      }
    }
  }

  /** The same from the start of a job. */
  lemma FileDecidesEntry(files: nat, events: seq<JobEvent>, k: Job, i: nat)
    requires Reaches(NewJob(files), events, k) && i < files
    ensures i < |k.items| && k.items[i].index == i
    ensures k.items[i].content.Parsed? <==> Settled(NewJob(files), events, k, i) == Some(true)
    ensures k.items[i].failed <==> Settled(NewJob(files), events, k, i) == Some(false)
  {
    NewJobConserved(files);
    EntryFollowsItsFile(NewJob(files), events, k, i);
  }
}
