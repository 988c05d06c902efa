/** Browsing, refreshing and drafting from native catalogue sources
    (backend/catalog-sources.ts, lines 170-317 and 319-333). */
module CatalogBrowse {
  import opened Common
  import opened CatalogWorkers

  type SourceId = string

  const FRESH_MS := 60000
  const MAX_BUSY := 2
  const MAX_FILES := 1500

  /** Entries read one file each by the workers, or all at once from a single catalogue file;
      the latter are never `supported`. */
  datatype Body = FromFiles(job: Job) | FromCatalogue(entries: nat)

  datatype Index = Index(revision: nat, fetchedAt: int, loading: bool, body: Body)

  /** A browse that waits for the file list of its source. */
  datatype Request = Request(revision: nat, fetchedAt: int)

  datatype Catalog = Catalog(indexes: map<SourceId, Index>, busy: set<SourceId>, waiting: map<SourceId, Request>, nextRevision: nat)

  datatype Answer = Cached(index: Index) | Busy | Started

  datatype Event =
    | Browse(id: SourceId, refresh: bool, now: int)
    | ListArrives(id: SourceId, files: nat)        // the file list of a repository
    | CatalogueArrives(id: SourceId, entries: nat) // a source whose single file holds all entries
    | ListFails(id: SourceId)
    | WorkerMoves(id: SourceId, move: JobEvent)
    | WorkersFinish(id: SourceId)

  const EMPTY := Catalog(map[], {}, map[], 0)

  predicate ServesCached(c: Catalog, id: SourceId, refresh: bool, now: int) {
    id in c.indexes && (c.indexes[id].loading || !refresh || now - c.indexes[id].fetchedAt < FRESH_MS)
  }

  function BrowseAnswer(c: Catalog, id: SourceId, refresh: bool, now: int): Answer {
    if ServesCached(c, id, refresh, now) then Cached(c.indexes[id])
    else if id in c.busy || |c.busy| >= MAX_BUSY then Busy
    else Started
  }

  predicate Movable(j: Job, e: JobEvent) {
    Enabled(j, e) && j.cursor <= |j.items| && (j.workers[e.worker].Fetching? ==> j.workers[e.worker].file < |j.items|)
  }

  function Moved(x: Index, move: JobEvent): Index
    requires x.body.FromFiles? && Movable(x.body.job, move)
  {
    x.(body := FromFiles(StepJob(x.body.job, move)))
  }

  predicate AllDone(j: Job) {
    forall w | 0 <= w < |j.workers| :: j.workers[w].Done?
  }

  predicate Loading(c: Catalog, id: SourceId) {
    id in c.indexes && c.indexes[id].loading && c.indexes[id].body.FromFiles?
  }

  function Step(c: Catalog, e: Event): Catalog {
    match e
    case Browse(id, refresh, now) =>
      if BrowseAnswer(c, id, refresh, now) != Started then c
      else c.(busy := c.busy + {id}, waiting := c.waiting[id := Request(c.nextRevision, now)], nextRevision := c.nextRevision + 1)
    case ListArrives(id, files) =>
      if id !in c.waiting then c
      else if files > MAX_FILES then c.(busy := c.busy - {id}, waiting := c.waiting - {id})
      else
        var r := c.waiting[id];
        c.(indexes := c.indexes[id := Index(r.revision, r.fetchedAt, true, FromFiles(NewJob(files)))], waiting := c.waiting - {id})
    case CatalogueArrives(id, entries) =>
      if id !in c.waiting then c
      else
        var r := c.waiting[id];
        c.(indexes := c.indexes[id := Index(r.revision, r.fetchedAt, false, FromCatalogue(entries))],
           waiting := c.waiting - {id}, busy := c.busy - {id})
    case ListFails(id) =>
      if id !in c.waiting then c else c.(busy := c.busy - {id}, waiting := c.waiting - {id})
    case WorkerMoves(id, move) =>
      if Loading(c, id) && Movable(c.indexes[id].body.job, move)
      then c.(indexes := c.indexes[id := Moved(c.indexes[id], move)])
      else c
    case WorkersFinish(id) =>
      if Loading(c, id) && AllDone(c.indexes[id].body.job)
      then c.(indexes := c.indexes[id := c.indexes[id].(loading := false)], busy := c.busy - {id})
      else c
  }

  /** The catalogue object; each method is the code between two awaits. */
  class CatalogSources {
    var indexes: map<SourceId, Index>
    var busy: set<SourceId>
    var waiting: map<SourceId, Request>
    var nextRevision: nat   // revisions are random identifiers, modelled as never-repeated numbers

    function View(): Catalog
      reads this
    {
      Catalog(indexes, busy, waiting, nextRevision)
    }

    constructor ()
      ensures View() == EMPTY
    {
      indexes, busy, waiting, nextRevision := map[], {}, map[], 0;
    }

    method BeginBrowse(id: SourceId, refresh: bool, now: int) returns (answer: Answer)
      modifies this
      ensures answer == BrowseAnswer(old(View()), id, refresh, now)
      ensures View() == Step(old(View()), Browse(id, refresh, now))
    {
      if id in indexes && (indexes[id].loading || !refresh || now - indexes[id].fetchedAt < FRESH_MS) {
        return Cached(indexes[id]);
      }
      if id in busy || |busy| >= MAX_BUSY {
        return Busy;
      }
      busy := busy + {id};
      waiting := waiting[id := Request(nextRevision, now)];
      nextRevision := nextRevision + 1;
      return Started;
    }

    method ResumeWithList(id: SourceId, files: nat) returns (ok: bool)
      requires id in waiting
      modifies this
      ensures ok == (files <= MAX_FILES)
      ensures View() == Step(old(View()), ListArrives(id, files))
    {
      var request := waiting[id];
      waiting := waiting - {id};
      if files > MAX_FILES {
        busy := busy - {id};
        return false;
      }
      indexes := indexes[id := Index(request.revision, request.fetchedAt, true, FromFiles(NewJob(files)))];
      return true;
    }

    method ResumeWithCatalogue(id: SourceId, entries: nat)
      requires id in waiting
      modifies this
      ensures View() == Step(old(View()), CatalogueArrives(id, entries))
    {
      var request := waiting[id];
      waiting := waiting - {id};
      indexes := indexes[id := Index(request.revision, request.fetchedAt, false, FromCatalogue(entries))];
      busy := busy - {id};
    }

    method ResumeWithError(id: SourceId)
      requires id in waiting
      modifies this
      ensures View() == Step(old(View()), ListFails(id))
    {
      waiting := waiting - {id};
      busy := busy - {id};
    }

    /** One worker of the source takes a file or gets its reply. */
    method MoveWorker(id: SourceId, move: JobEvent)
      requires Loading(View(), id) && Movable(indexes[id].body.job, move)
      modifies this
      ensures View() == Step(old(View()), WorkerMoves(id, move))
    {
      var result := indexes[id];
      var job := new SourceJob.Of(result.body.job);
      match move {
        case Take(w, timedOut) => job.TakeNext(w, timedOut);
        case Reply(w, ok) => job.Complete(w, ok);
      }
      indexes := indexes[id := result.(body := FromFiles(job.View()))];
    }

    method FinishLoading(id: SourceId)
      requires Loading(View(), id) && AllDone(indexes[id].body.job)
      modifies this
      ensures View() == Step(old(View()), WorkersFinish(id))
    {
      indexes := indexes[id := indexes[id].(loading := false)];
      busy := busy - {id};
    }

    /** Run the code an event resumes; an event that cannot happen now changes nothing. */
    method Deliver(e: Event)
      modifies this
      ensures View() == Step(old(View()), e)
    {
      match e {
        case Browse(id, refresh, now) =>
          var _ := BeginBrowse(id, refresh, now);
        case ListArrives(id, files) =>
          if id in waiting {
            var _ := ResumeWithList(id, files);
          }
        case CatalogueArrives(id, entries) => if id in waiting { ResumeWithCatalogue(id, entries); }
        case ListFails(id) => if id in waiting { ResumeWithError(id); }
        case WorkerMoves(id, move) =>
          if Loading(View(), id) && Movable(indexes[id].body.job, move) { MoveWorker(id, move); }
        case WorkersFinish(id) =>
          if Loading(View(), id) && AllDone(indexes[id].body.job) { FinishLoading(id); }
      }
    }

    /** Any history of the catalogue, its workers included, is a run of the state machine. */
    method DeliverAll(events: seq<Event>)
      modifies this
      ensures View() == Run(old(View()), events)
    {
      ghost var before := View();
      for i := 0 to |events|
        invariant View() == Run(before, events[..i])
      {
        Deliver(events[i]);
        assert events[..i + 1][..i] == events[..i];
      }
      assert events[..|events|] == events;
    }
  }

  // ---------------------------------------------------------------- invariants

  /** The busy sources are exactly those waiting for a list or loading entries, never both. */
  ghost predicate Consistent(c: Catalog) {
    && |c.busy| <= MAX_BUSY
    && (forall id :: id in c.busy <==> id in c.waiting || Loading(c, id))
    && (forall id | id in c.waiting :: !Loading(c, id) && c.waiting[id].revision < c.nextRevision)
    && (forall id | id in c.indexes :: c.indexes[id].revision < c.nextRevision && (c.indexes[id].loading ==> Loading(c, id)))
    && (forall id | id in c.indexes && id in c.waiting :: c.indexes[id].revision < c.waiting[id].revision)
  }

  ghost predicate Sound(c: Catalog) {
    forall id | id in c.indexes :: JobSound(c.indexes[id])
  }

  /** A loading index keeps its books; a finished one has processed every entry. */
  ghost predicate JobSound(x: Index) {
    match x.body
    case FromCatalogue(_) => !x.loading
    case FromFiles(job) =>
      && Conserved(job) && FetchedOnce(job)
      && |job.workers| == WORKERS
      && (!x.loading ==> job.loaded == |job.items|)
  }

  lemma BrowseKeepsConsistent(c: Catalog, id: SourceId, refresh: bool, now: int)
    requires Consistent(c)
    ensures Consistent(Step(c, Browse(id, refresh, now)))
  {
  }

  lemma ListKeepsConsistent(c: Catalog, id: SourceId, files: nat)
    requires Consistent(c)
    ensures Consistent(Step(c, ListArrives(id, files)))
  {
  }

  lemma CatalogueKeepsConsistent(c: Catalog, id: SourceId, entries: nat)
    requires Consistent(c)
    ensures Consistent(Step(c, CatalogueArrives(id, entries)))
  {
  }

  lemma WorkersKeepConsistent(c: Catalog, e: Event)
    requires Consistent(c) && (e.WorkerMoves? || e.WorkersFinish?)
    ensures Consistent(Step(c, e))
  {
    match e
    case WorkerMoves(id, move) =>
    case WorkersFinish(id) =>
  }

  lemma StepKeepsConsistent(c: Catalog, e: Event)
    requires Consistent(c)
    ensures Consistent(Step(c, e))
  {
    match e
    case Browse(id, refresh, now) => BrowseKeepsConsistent(c, id, refresh, now);
    case ListArrives(id, files) => ListKeepsConsistent(c, id, files);
    case CatalogueArrives(id, entries) => CatalogueKeepsConsistent(c, id, entries);
    case ListFails(id) =>
    case _ => WorkersKeepConsistent(c, e);
  }

  lemma MoveKeepsSound(x: Index, move: JobEvent)
    requires JobSound(x) && x.loading && Movable(x.body.job, move)
    ensures JobSound(Moved(x, move))
  {
    if move.Take? {
      TakeConserves(x.body.job, move.worker, move.timedOut);
    } else {
      ReplyConserves(x.body.job, move.worker, move.ok);
    }
    StepFetchesOnce(x.body.job, move);
  }

  lemma FinishKeepsSound(x: Index)
    requires JobSound(x) && x.loading && AllDone(x.body.job)
    ensures JobSound(x.(loading := false))
  {
    NothingInFlight(x.body.job.workers);
    assert x.body.job.workers[0].Done?;
  }

  lemma StepKeepsSound(c: Catalog, e: Event)
    requires Sound(c)
    ensures Sound(Step(c, e))
  {
    match e
    case ListArrives(id, files) => NewJobConserved(files);
    case WorkerMoves(id, move) =>
      if Loading(c, id) && Movable(c.indexes[id].body.job, move) {
        MoveKeepsSound(c.indexes[id], move);
      }
    case WorkersFinish(id) =>
      if Loading(c, id) && AllDone(c.indexes[id].body.job) {
        FinishKeepsSound(c.indexes[id]);
      }
    case _ =>
  }

  function Run(c: Catalog, events: seq<Event>): Catalog {
    if events == [] then c else Step(Run(c, events[..|events| - 1]), events[|events| - 1])
  }

  /** In every interleaving at most two sources are busy, and every index keeps its books. */
  lemma {:induction false} RunKeepsInvariants(events: seq<Event>)
    ensures Consistent(Run(EMPTY, events)) && Sound(Run(EMPTY, events))
  {
    if events == [] {
    } else {
      var front := events[..|events| - 1];
      RunKeepsInvariants(front);
      StepKeepsConsistent(Run(EMPTY, front), events[|events| - 1]);
      StepKeepsSound(Run(EMPTY, front), events[|events| - 1]);
    }
  }

  lemma LoadingStays(c: Catalog, e: Event, id: SourceId)
    requires Consistent(c) && Loading(c, id)
    ensures id in Step(c, e).indexes && Step(c, e).indexes[id].revision == c.indexes[id].revision
  {
    match e
    case Browse(_, _, _) =>
    case ListArrives(_, _) =>
    case CatalogueArrives(_, _) =>
    case ListFails(_) =>
    case WorkerMoves(_, _) =>
    case WorkersFinish(_) =>
  }

  /** A refresh never replaces an index that is still loading. */
  lemma LoadingIsNotReplaced(events: seq<Event>, e: Event, id: SourceId)
    requires Loading(Run(EMPTY, events), id)
    ensures var c := Run(EMPTY, events);
            && id in Step(c, e).indexes && Step(c, e).indexes[id].revision == c.indexes[id].revision
            && (Step(c, e).indexes[id].loading ==> id in Step(c, e).busy)
  {
    RunKeepsInvariants(events);
    LoadingStays(Run(EMPTY, events), e, id);
    StepKeepsConsistent(Run(EMPTY, events), e);
  }

  predicate DraftAccepted(c: Catalog, id: SourceId, revision: nat, i: nat) {
    id in c.indexes && c.indexes[id].revision == revision && c.indexes[id].body.FromFiles?
    && i < |c.indexes[id].body.job.items| && c.indexes[id].body.job.items[i].content.Parsed?
  }

  lemma RevisionStep(c: Catalog, e: Event, id: SourceId)
    requires Consistent(c) && id in c.indexes
    ensures id in Step(c, e).indexes && c.indexes[id].revision <= Step(c, e).indexes[id].revision
  {
    match e
    case Browse(_, _, _) =>
    case ListArrives(_, _) =>
    case CatalogueArrives(_, _) =>
    case ListFails(_) =>
    case WorkerMoves(_, _) =>
    case WorkersFinish(_) =>
  }

  lemma {:induction false} RevisionsGrow(c: Catalog, events: seq<Event>, id: SourceId)
    requires Consistent(c) && id in c.indexes
    ensures Consistent(Run(c, events)) && id in Run(c, events).indexes
    ensures c.indexes[id].revision <= Run(c, events).indexes[id].revision
  {
    if events == [] {
    } else {
      var front := events[..|events| - 1];
      RevisionsGrow(c, front, id);
      RevisionStep(Run(c, front), events[|events| - 1], id);
      StepKeepsConsistent(Run(c, front), events[|events| - 1]);
    }
  }

  /** Once an index has been replaced, a draft naming the old revision is refused for ever. */
  lemma StaleDraftIsRefused(c: Catalog, e: Event, events: seq<Event>, id: SourceId, i: nat)
    requires Consistent(c) && id in c.indexes
    requires Step(c, e).indexes[id].revision != c.indexes[id].revision
    ensures !DraftAccepted(Run(Step(c, e), events), id, c.indexes[id].revision, i)
  {
    RevisionStep(c, e, id);
    StepKeepsConsistent(c, e);
    RevisionsGrow(Step(c, e), events, id);
  }

  // ------------------------------------------------- one source, table by table

  /** A new load starts: nothing is stored, or a refresh is asked for a finished index at least a minute
      old; the source is not busy and at most one other is. */
  predicate Starts(c: Catalog, e: Event, id: SourceId) {
    && e.Browse? && e.id == id
    && (id in c.indexes ==> !c.indexes[id].loading && e.refresh && e.now >= c.indexes[id].fetchedAt + 60000)
    && id !in c.busy && |c.busy| <= 1
  }

  predicate Arrives(c: Catalog, e: Event, id: SourceId) {
    id in c.waiting && (e.ListArrives? || e.CatalogueArrives? || e.ListFails?) && e.id == id
  }

  /** The source loads file by file from now on. */
  predicate Lists(c: Catalog, e: Event, id: SourceId) {
    Arrives(c, e, id) && e.ListArrives? && e.files <= 1500
  }

  /** The last worker has left its loop. */
  predicate Completes(c: Catalog, e: Event, id: SourceId) {
    e == WorkersFinish(id) && Loading(c, id) && forall w | 0 <= w < |c.indexes[id].body.job.workers| :: c.indexes[id].body.job.workers[w].Done?
  }

  ghost predicate WaitingMoves(c: Catalog, d: Catalog, e: Event, id: SourceId) {
    && (id in d.waiting <==> Starts(c, e, id) || (id in c.waiting && !Arrives(c, e, id)))
    && (id in d.waiting ==> d.waiting[id] == if Starts(c, e, id) then Request(c.nextRevision, e.now) else c.waiting[id])
  }

  ghost predicate BusyMoves(c: Catalog, d: Catalog, e: Event, id: SourceId) {
    id in d.busy <==>
      || Starts(c, e, id)
      || (id in c.busy && !Completes(c, e, id) && !(Arrives(c, e, id) && !Lists(c, e, id)))
  }

  ghost predicate IndexMoves(c: Catalog, d: Catalog, e: Event, id: SourceId) {
    if Lists(c, e, id) then
      id in d.indexes && d.indexes[id] == Index(c.waiting[id].revision, c.waiting[id].fetchedAt, true, FromFiles(NewJob(e.files)))
    else if Arrives(c, e, id) && e.CatalogueArrives? then
      id in d.indexes && d.indexes[id] == Index(c.waiting[id].revision, c.waiting[id].fetchedAt, false, FromCatalogue(e.entries))
    else
      && (id in d.indexes <==> id in c.indexes)
      && (id in c.indexes ==>
            && d.indexes[id].revision == c.indexes[id].revision && d.indexes[id].fetchedAt == c.indexes[id].fetchedAt
            && (d.indexes[id].loading <==> c.indexes[id].loading && !Completes(c, e, id))
            && (!(e.WorkerMoves? && e.id == id) ==> d.indexes[id].body == c.indexes[id].body))
  }

  /** What one event does to the tables of one source. */
  lemma TablesMove(c: Catalog, e: Event, id: SourceId)
    requires Consistent(c)
    ensures WaitingMoves(c, Step(c, e), e, id) && BusyMoves(c, Step(c, e), e, id) && IndexMoves(c, Step(c, e), e, id)
  {
    match e
    case Browse(_, _, _) =>
    case ListArrives(_, _) =>
    case CatalogueArrives(_, _) =>
    case ListFails(_) =>
    case WorkerMoves(_, _) =>
    case WorkersFinish(_) =>
  }

  /** A browse that started a load of `id` at instant `t` came. */
  ghost predicate StartedAt(events: seq<Event>, id: SourceId, t: int) {
    events != [] &&
    var front, last := events[..|events| - 1], events[|events| - 1];
    (Starts(Run(EMPTY, front), last, id) && last.now == t) || StartedAt(front, id, t)
  }

  lemma {:induction false} IndexIsDated(events: seq<Event>, id: SourceId)
    ensures var c := Run(EMPTY, events);
            && (id in c.waiting ==> StartedAt(events, id, c.waiting[id].fetchedAt))
            && (id in c.indexes ==> StartedAt(events, id, c.indexes[id].fetchedAt))
  {
    if events == [] {
    } else {
      var front := events[..|events| - 1];
      IndexIsDated(front, id);
      RunKeepsInvariants(front);
      TablesMove(Run(EMPTY, front), events[|events| - 1], id);
    }
  }

  /** What a browse gets: the stored index when it is still loading, no refresh is asked or it was
      fetched within the last minute; nothing while two sources, or this one, are busy; otherwise a
      new load. */
  lemma BrowseMeans(events: seq<Event>, id: SourceId, refresh: bool, now: int)
    ensures var c := Run(EMPTY, events); var answer := BrowseAnswer(c, id, refresh, now);
            && (answer.Started? <==> Starts(c, Browse(id, refresh, now), id))
            && (answer.Cached? ==>
                  && id in c.indexes && answer.index == c.indexes[id] && StartedAt(events, id, answer.index.fetchedAt)
                  && (refresh && !answer.index.loading ==> now < answer.index.fetchedAt + 60000))
            && (answer.Busy? ==>
                  && (id in c.indexes ==> refresh && !c.indexes[id].loading)
                  && (id in c.waiting || Loading(c, id) || |c.busy| == 2))
  {
    RunKeepsInvariants(events);
    IndexIsDated(events, id);
  }
}
