/** Mutual exclusion of Docker builds and cleanups (backend/docker-operation-state.ts, lines 7-82,
    with the callers in backend/docker-prune-service.ts, lines 141-146, 299-348, 525-589, 611-685).
    Builds look at the cleanup lock once, when they start; cleanups look at the build counter
    once per category. Neither check is atomic with the work that follows it. */
module CleanupExclusion {
  import opened Common

  type BuildId = nat
  type PruneId = nat

  // -------------------------------------------------------------- shared state

  class CleanupExecutionLock {
    var locked: bool

    constructor ()
      ensures !locked
    {
      locked := false;
    }

    method TryAcquire() returns (ok: bool)
      modifies this
      ensures ok == !old(locked) && locked
    {
      if locked {
        return false;
      }
      locked := true;
      return true;
    }

    method Release()
      modifies this
      ensures !locked
    {
      locked := false;
    }
  }

  class DockerOperationState {
    const cleanupExecutionLock: CleanupExecutionLock
    var activeBuilds: nat

    function View(): Counters
      reads this, cleanupExecutionLock
    {
      Counters(cleanupExecutionLock.locked, activeBuilds)
    }

    constructor ()
      ensures View() == Counters(false, 0) && fresh(cleanupExecutionLock)
    {
      cleanupExecutionLock := new CleanupExecutionLock();
      activeBuilds := 0;
    }

    /** The part of `trackDockerBuild` before the operation; `ok` is false when it throws. */
    method BeginBuild() returns (ok: bool)
      modifies this
      ensures (View(), ok) == TryBeginBuild(old(View()))
    {
      if cleanupExecutionLock.locked {
        return false;
      }
      activeBuilds := activeBuilds + 1;
      return true;
    }

    /** The `finally` part of `trackDockerBuild`. */
    method EndBuild()
      modifies this
      ensures View() == BuildEnded(old(View()))
    {
      activeBuilds := if activeBuilds > 0 then activeBuilds - 1 else 0;
    }

    method TryStartDockerCleanup(updateActive: bool) returns (ok: bool)
      modifies cleanupExecutionLock
      ensures (View(), ok) == TryBeginCleanup(old(View()), updateActive)
    {
      if updateActive {
        return false;
      }
      ok := cleanupExecutionLock.TryAcquire();
    }

    method FinishDockerCleanup()
      modifies cleanupExecutionLock
      ensures View() == CleanupEnded(old(View()))
    {
      cleanupExecutionLock.Release();
    }
  }

  datatype Counters = Counters(locked: bool, activeBuilds: nat)

  function TryBeginBuild(c: Counters): (Counters, bool) {
    if c.locked then (c, false) else (c.(activeBuilds := c.activeBuilds + 1), true)
  }

  function BuildEnded(c: Counters): Counters {
    c.(activeBuilds := if c.activeBuilds > 0 then c.activeBuilds - 1 else 0)
  }

  function TryBeginCleanup(c: Counters, updateActive: bool): (Counters, bool) {
    if updateActive || c.locked then (c, false) else (c.(locked := true), true)
  }

  function CleanupEnded(c: Counters): Counters {
    c.(locked := false)
  }

  // ---------------------------------------------------------- interleaved runs

  /** Where a cleanup that holds the lock is suspended:
      `Opening` is an automatic cleanup before its first blocker check, `Between` any cleanup
      before the blocker check of its next category, `Asking` the await inside that check,
      `Working` a category that passed, `Closing` a cleanup that only has to release. */
  datatype Stage = Opening | OpeningAsking | Between | Asking | Working | Closing

  /** `passed` records that some category of this cleanup has passed its blocker check. */
  datatype Prune = Prune(stage: Stage, categories: nat, passed: bool)

  datatype System = System(counters: Counters, building: set<BuildId>, prunes: map<PruneId, Prune>)

  datatype Event =
    | BuildStarts(build: BuildId)
    | BuildEnds(build: BuildId)
    | ManualStarts(prune: PruneId, categories: nat, updateActive: bool)
    | AutomaticStarts(prune: PruneId, categories: nat, updateActive: bool)
    | Checks(prune: PruneId)                    // the synchronous look at the build counter
    | Answers(prune: PruneId, blocked: bool)    // the other blockers have been asked
    | CategoryEnds(prune: PruneId)
    | Throws(prune: PruneId)                    // an automatic cleanup fails outside any category
    | Releases(prune: PruneId)

  const START := System(Counters(false, 0), {}, map[])

  function StartPrune(s: System, id: PruneId, prune: Prune, updateActive: bool): System {
    var (counters, ok) := TryBeginCleanup(s.counters, updateActive);
    if ok && id !in s.prunes then s.(counters := counters, prunes := s.prunes[id := prune]) else s
  }

  /** The blocker check refused: an opening cleanup is deferred, a category is reported as failed. */
  function Refuse(p: Prune): Prune {
    if p.stage in {Opening, OpeningAsking} then p.(stage := Closing)
    else p.(stage := Between, categories := if p.categories > 0 then p.categories - 1 else 0)
  }

  function Advance(s: System, id: PruneId, e: Event): System
    requires id in s.prunes
  {
    var p := s.prunes[id];
    match e
    case Checks(_) =>
      if p.stage == Opening || (p.stage == Between && p.categories > 0) then
        s.(prunes := s.prunes[id := if s.counters.activeBuilds > 0 then Refuse(p)
                                    else p.(stage := if p.stage == Opening then OpeningAsking else Asking)])
      else s
    case Answers(_, blocked) =>
      if p.stage == OpeningAsking then s.(prunes := s.prunes[id := if blocked then Refuse(p) else p.(stage := Between)])
      else if p.stage == Asking then
        s.(prunes := s.prunes[id := if blocked then Refuse(p) else p.(stage := Working, passed := true)])
      else s
    case CategoryEnds(_) =>
      if p.stage == Working then s.(prunes := s.prunes[id := Refuse(p)]) else s
    case Throws(_) =>
      if p.stage in {Opening, OpeningAsking, Between} then s.(prunes := s.prunes[id := p.(stage := Closing)]) else s
    case Releases(_) =>
      if p.stage == Closing || (p.stage == Between && p.categories == 0)
      then s.(counters := CleanupEnded(s.counters), prunes := s.prunes - {id}) else s
    case _ => s
  }

  function Step(s: System, e: Event): System {
    match e
    case BuildStarts(b) =>
      var (counters, ok) := TryBeginBuild(s.counters);
      if ok && b !in s.building then s.(counters := counters, building := s.building + {b}) else s
    case BuildEnds(b) =>
      if b in s.building then s.(counters := BuildEnded(s.counters), building := s.building - {b}) else s
    case ManualStarts(p, n, updateActive) => StartPrune(s, p, Prune(Between, n, false), updateActive)
    case AutomaticStarts(p, n, updateActive) => StartPrune(s, p, Prune(Opening, n, false), updateActive)
    case _ => if e.prune in s.prunes then Advance(s, e.prune, e) else s
  }

  function Run(s: System, events: seq<Event>): System {
    if events == [] then s else Step(Run(s, events[..|events| - 1]), events[|events| - 1])
  }

  /** The cleanup has looked at the build counter and found it zero. */
  predicate Cleared(p: Prune) {
    p.passed || p.stage in {OpeningAsking, Asking, Working}
  }

  ghost predicate Safe(s: System) {
    && (s.counters.locked <==> s.prunes != map[])
    && (forall p, q | p in s.prunes && q in s.prunes :: p == q)
    && s.counters.activeBuilds == |s.building|
    && (forall p | p in s.prunes && Cleared(s.prunes[p]) :: s.building == {})
  }

  lemma AdvanceKeepsSafe(s: System, id: PruneId, e: Event)
    requires Safe(s) && id in s.prunes
    ensures Safe(Advance(s, id, e))
  {
    var t := Advance(s, id, e);
    if t.prunes == s.prunes - {id} {
      assert forall p :: p !in t.prunes;
      assert t.prunes == map[];
    } else if t != s {
      assert id in t.prunes;
      assert s.counters.activeBuilds == 0 ==> s.building == {};
    }
  }

  lemma StepKeepsSafe(s: System, e: Event)
    requires Safe(s)
    ensures Safe(Step(s, e))
  {
    match e
    case BuildStarts(b) =>
    case BuildEnds(b) =>
    case ManualStarts(p, n, updateActive) =>
      assert p in Step(s, e).prunes || Step(s, e) == s;
    case AutomaticStarts(p, n, updateActive) =>
      assert p in Step(s, e).prunes || Step(s, e) == s;
    case _ =>
      if e.prune in s.prunes {
        AdvanceKeepsSafe(s, e.prune, e);
      }
  }

  /** In every interleaving at most one cleanup holds the lock, the lock is held exactly by it,
      and the counter equals the number of builds in flight. */
  lemma {:induction false} RunKeepsSafe(s: System, events: seq<Event>)
    requires Safe(s)
    ensures Safe(Run(s, events))
  {
    if events == [] {
    } else {
      RunKeepsSafe(s, events[..|events| - 1]);
      StepKeepsSafe(Run(s, events[..|events| - 1]), events[|events| - 1]);
    }
  }

  lemma PassedIsKept(s: System, id: PruneId, e: Event)
    requires id in s.prunes && s.prunes[id].passed && id in Step(s, e).prunes && Safe(s)
    ensures Step(s, e).prunes[id].passed
  {
  }

  /** From the moment a category has passed its check until the lock is released, no tracked
      build is active, whatever else happens in between. */
  lemma {:induction false} NoBuildAfterClearance(events: seq<Event>, i: nat, id: PruneId)
    requires i <= |events|
    requires forall j | i <= j <= |events| :: id in Run(START, events[..j]).prunes
    requires Run(START, events[..i]).prunes[id].passed
    ensures Run(START, events).prunes.Keys == {id} && Run(START, events).prunes[id].passed
    ensures Run(START, events).building == {} && Run(START, events).counters.activeBuilds == 0
  {
    assert events[..|events|] == events;
    RunKeepsSafe(START, events);
    if i == |events| {
    } else {
      var front := events[..|events| - 1];
      forall j | i <= j <= |front| ensures id in Run(START, front[..j]).prunes {
        assert front[..j] == events[..j];
      }
      assert front[..i] == events[..i];
      NoBuildAfterClearance(front, i, id);
      RunKeepsSafe(START, front);
      PassedIsKept(Run(START, front), id, events[|events| - 1]);
    }
  }

  /** A cleanup started while a build is running cannot get a category past its check until that
      build ends: the lock alone does not exclude builds, the per-category check does. */
  lemma {:induction false} RunningBuildHoldsCategoriesBack(s: System, events: seq<Event>, build: BuildId, id: PruneId)
    requires Safe(s) && build in s.building && BuildEnds(build) !in events
    requires id in Run(s, events).prunes
    ensures build in Run(s, events).building
    ensures !Run(s, events).prunes[id].passed && Run(s, events).prunes[id].stage != Working
  {
    RunKeepsSafe(s, events);
    BuildKeepsRunning(s, events, build);
  }

  lemma {:induction false} BuildKeepsRunning(s: System, events: seq<Event>, build: BuildId)
    requires build in s.building && BuildEnds(build) !in events
    ensures build in Run(s, events).building
  {
    if events == [] {
    } else {
      BuildKeepsRunning(s, events[..|events| - 1], build);
      assert events[|events| - 1] in events;
    }
  }

  lemma HeldLockAdmitsNoBuild(s: System, e: Event, id: PruneId)
    requires Safe(s) && id in s.prunes
    ensures Step(s, e).building == if e.BuildEnds? then s.building - {e.build} else s.building
  {
  }

  lemma PrefixRuns(s: System, events: seq<Event>, id: PruneId)
    requires events != [] && forall j | 0 <= j <= |events| :: id in Run(s, events[..j]).prunes
    ensures var front := events[..|events| - 1];
            (forall j | 0 <= j <= |front| :: id in Run(s, front[..j]).prunes) && id in Run(s, front).prunes
  {
    var front := events[..|events| - 1];
    forall j | 0 <= j <= |front| ensures id in Run(s, front[..j]).prunes {
      assert front[..j] == events[..j];
    }
    assert front[..|front|] == front;
  }

  /** While a cleanup holds the lock the builds in flight are exactly those that were running when it
      took the lock and have not ended since. */
  lemma {:induction false} OnlyOlderBuildsUnderTheLock(s: System, events: seq<Event>, id: PruneId)
    requires Safe(s) && forall j | 0 <= j <= |events| :: id in Run(s, events[..j]).prunes
    ensures forall b :: b in Run(s, events).building <==> b in s.building && BuildEnds(b) !in events
  {
    if events == [] {
    } else {
      var front, last := events[..|events| - 1], events[|events| - 1];
      assert forall e :: e in events <==> e in front || e == last;
      PrefixRuns(s, events, id);
      OnlyOlderBuildsUnderTheLock(s, front, id);
      RunKeepsSafe(s, front);
      HeldLockAdmitsNoBuild(Run(s, front), last, id);
    }
  }

  /** Acquiring the lock does not wait for builds: both can be active until the first check. */
  lemma LockAloneDoesNotExcludeBuilds(build: BuildId, id: PruneId, categories: nat)
    ensures var s := Run(START, [BuildStarts(build), ManualStarts(id, categories, false)]);
            s.counters == Counters(true, 1) && s.building == {build} && s.prunes.Keys == {id}
  {
    var one := [BuildStarts(build)];
    assert [BuildStarts(build), ManualStarts(id, categories, false)][..1] == one && one[..0] == [];
    assert Run(START, one) == Step(START, BuildStarts(build));
  }

  // ---------------------------------------------------- stages and categories exactly

  ghost predicate StartsCleanup(s: System, e: Event, id: PruneId) {
    (e.ManualStarts? || e.AutomaticStarts?) && e.prune == id && !e.updateActive && s.prunes == map[]
  }

  /** In every reachable state a build starts exactly when no cleanup is under way, and a cleanup starts
      exactly when none is and no update is active. */
  lemma AdmissionExactly(events: seq<Event>, e: Event, id: PruneId, b: BuildId)
    ensures var s := Run(START, events); var t := Step(s, e);
            && (b in t.building <==> (b in s.building && e != BuildEnds(b)) || (e == BuildStarts(b) && s.prunes == map[]))
            && (id in t.prunes && id !in s.prunes <==> StartsCleanup(s, e, id))
            && (StartsCleanup(s, e, id) ==>
                  t.prunes[id] == Prune(if e.ManualStarts? then Between else Opening, e.categories, false))
  {
    RunKeepsSafe(START, events);
  }

  /** The next category may be looked at, and no build is running. */
  ghost predicate Passes(s: System, e: Event, id: PruneId)
    requires id in s.prunes
  {
    e == Checks(id) && s.building == {}
  }

  /** One category is over: it was refused at the check, refused by another blocker, or done. */
  ghost predicate Finishes(s: System, e: Event, id: PruneId)
    requires id in s.prunes
  {
    var p := s.prunes[id];
    || (p.stage == Between && p.categories > 0 && e == Checks(id) && s.building != {})
    || (p.stage == Asking && e == Answers(id, true))
    || (p.stage == Working && e == CategoryEnds(id))
  }

  /** A cleanup that was put off, or failed outside any category. */
  ghost predicate GivesUp(s: System, e: Event, id: PruneId)
    requires id in s.prunes
  {
    var p := s.prunes[id];
    || (p.stage == Opening && e == Checks(id) && s.building != {})
    || (p.stage == OpeningAsking && e == Answers(id, true))
    || (p.stage in {Opening, OpeningAsking, Between} && e == Throws(id))
  }

  ghost predicate Leaves(s: System, e: Event, id: PruneId)
    requires id in s.prunes
  {
    e == Releases(id) && (s.prunes[id].stage == Closing || (s.prunes[id].stage == Between && s.prunes[id].categories == 0))
  }

  ghost function NextStage(s: System, e: Event, id: PruneId): Stage
    requires id in s.prunes
  {
    var p := s.prunes[id];
    if Finishes(s, e, id) then Between
    else if GivesUp(s, e, id) then Closing
    else if p.stage == Opening && Passes(s, e, id) then OpeningAsking
    else if p.stage == OpeningAsking && e == Answers(id, false) then Between
    else if p.stage == Between && p.categories > 0 && Passes(s, e, id) then Asking
    else if p.stage == Asking && e == Answers(id, false) then Working
    else p.stage
  }

  lemma StageMoves(s: System, e: Event, id: PruneId)
    requires Safe(s) && id in s.prunes
    ensures id in Step(s, e).prunes <==> !Leaves(s, e, id)
    ensures !Leaves(s, e, id) ==>
              var p := s.prunes[id];
              Step(s, e).prunes[id] == Prune(NextStage(s, e, id),
                                             if Finishes(s, e, id) && p.categories > 0 then p.categories - 1 else p.categories,
                                             p.passed || (p.stage == Asking && e == Answers(id, false)))
  {
  }

  /** A category is only at work, or asked about, while it is counted. */
  ghost predicate Counted(s: System) {
    forall id | id in s.prunes && s.prunes[id].stage in {Asking, Working} :: s.prunes[id].categories > 0
  }

  lemma StepKeepsCounted(s: System, e: Event)
    requires Safe(s) && Counted(s)
    ensures Counted(Step(s, e))
  {
    forall id | id in Step(s, e).prunes && Step(s, e).prunes[id].stage in {Asking, Working} ensures Step(s, e).prunes[id].categories > 0 {
      if id in s.prunes {
        StageMoves(s, e, id);
      }
    }
  }

  /** How many categories of the cleanup were over after the events. */
  ghost function Over(s: System, events: seq<Event>, id: PruneId): nat {
    if events == [] then 0
    else
      var before := Run(s, events[..|events| - 1]);
      Over(s, events[..|events| - 1], id) + if id in before.prunes && Finishes(before, events[|events| - 1], id) then 1 else 0
  }

  /** While a cleanup runs, the categories left and those that are over make up what it started with;
      it releases the lock after the last one, or when it was put off or failed. */
  lemma {:induction false} EachCategoryOnce(s: System, events: seq<Event>, id: PruneId)
    requires Safe(s) && Counted(s) && forall j | 0 <= j <= |events| :: id in Run(s, events[..j]).prunes
    ensures Safe(Run(s, events)) && Counted(Run(s, events)) && id in s.prunes && id in Run(s, events).prunes
    ensures Run(s, events).prunes[id].categories + Over(s, events, id) == s.prunes[id].categories
  {
    assert events[..|events|] == events && events[..0] == [];
    if events == [] {
    } else {
      var front, last := events[..|events| - 1], events[|events| - 1];
      PrefixRuns(s, events, id);
      EachCategoryOnce(s, front, id);
      StepKeepsSafe(Run(s, front), last);
      StepKeepsCounted(Run(s, front), last);
      StageMoves(Run(s, front), last, id);
    }
  }
}
