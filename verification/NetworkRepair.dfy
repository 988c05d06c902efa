/** Planning the recreation of services whose network has disappeared under them
    (backend/compose-network-repair.ts, lines 13-70). Planning only reads. */
module NetworkRepair {
  import opened Common
  import opened NetworkNamespace

  /** `id` is empty when Docker reports none. */
  datatype Attachment = Attachment(network: string, id: string)

  datatype ContainerState = ContainerState(running: bool, attachments: seq<Attachment>, mode: string)

  datatype Network = Network(id: string, name: string)

  /** `labelled` services ask for repair, `attached[s]` are the network keys of service `s`, and
      `networkNames` are the names of the model's networks by key. */
  datatype RepairModel = RepairModel(compose: ComposeModel, labelled: set<Name>, attached: map<Name, seq<string>>,
                                     networkNames: map<string, string>)

  datatype RepairError = ReadFailed | Refused(service: Name, network: string) | StillRunning(service: Name)

  type Observation = map<Name, seq<ContainerState>>

  type ContainerId = string

  /** Docker changes while the planner runs: every command of every inspection has its own answer.
      `listing(k, s)` answers the container listing of the k-th inspection and `reading(k, n, id)` the
      n-th of its container reads; None is a failed command. */
  datatype Replies = Replies(listing: (nat, Name) -> Option<seq<ContainerId>>,
                             reading: (nat, nat, ContainerId) -> Option<ContainerState>)

  /** `/^[a-f0-9]{12,64}$/` */
  predicate IsContainerId(id: ContainerId) {
    12 <= |id| <= 64 && forall c | c in id :: 'a' <= c <= 'f' || '0' <= c <= '9'
  }

  function ReadFirst(replies: Replies, k: nat, ids: seq<ContainerId>, n: nat): Option<seq<ContainerState>>
    requires n <= |ids|
  {
    if n == 0 then Some([])
    else
      var before := ReadFirst(replies, k, ids, n - 1);
      if before.None? || !IsContainerId(ids[n - 1]) || replies.reading(k, n - 1, ids[n - 1]).None? then None
      else Some(before.value + [replies.reading(k, n - 1, ids[n - 1]).value])
  }

  /** What the k-th inspection finds: the states of all containers of the service, or a failure. */
  function AnswerOf(replies: Replies): (nat, Name) -> Option<seq<ContainerState>> {
    (k: nat, service: Name) =>
      match replies.listing(k, service)
      case None => None
      case Some(ids) => ReadFirst(replies, k, ids, |ids|)
  }

  lemma {:induction false} ReadFirstMeaning(replies: Replies, k: nat, ids: seq<ContainerId>, n: nat)
    requires n <= |ids|
    ensures ReadFirst(replies, k, ids, n).Some? <==>
              forall i | 0 <= i < n :: IsContainerId(ids[i]) && replies.reading(k, i, ids[i]).Some?
    ensures ReadFirst(replies, k, ids, n).Some? ==>
              var states := ReadFirst(replies, k, ids, n).value;
              |states| == n && forall i | 0 <= i < n :: replies.reading(k, i, ids[i]) == Some(states[i])
  {
    if n == 0 {
    } else {
      ReadFirstMeaning(replies, k, ids, n - 1);
    }
  }

  /** An inspection succeeds exactly when the listing does and every listed container has a valid
      identifier and can be read; it then gives the state of each. */
  lemma InspectionMeaning(replies: Replies, k: nat, service: Name)
    ensures AnswerOf(replies)(k, service).Some? <==>
              && replies.listing(k, service).Some?
              && forall i | 0 <= i < |replies.listing(k, service).value| ::
                   IsContainerId(replies.listing(k, service).value[i])
                   && replies.reading(k, i, replies.listing(k, service).value[i]).Some?
    ensures AnswerOf(replies)(k, service).Some? ==>
              var ids, states := replies.listing(k, service).value, AnswerOf(replies)(k, service).value;
              |states| == |ids| && forall i | 0 <= i < |ids| :: replies.reading(k, i, ids[i]) == Some(states[i])
  {
    if replies.listing(k, service).Some? {
      var ids := replies.listing(k, service).value;
      ReadFirstMeaning(replies, k, ids, |ids|);
    }
  }

  class Docker {
    const replies: Replies
    var asked: seq<Name>

    constructor (replies: Replies)
      ensures this.replies == replies && asked == []
    {
      this.replies := replies;
      asked := [];
    }

    /** The listing of a service's containers and the read of each. */
    method Inspect(service: Name) returns (states: Option<seq<ContainerState>>)
      modifies this
      ensures asked == old(asked) + [service] && states == AnswerOf(replies)(|old(asked)|, service)
    {
      var k := |asked|;
      asked := asked + [service];
      var listed := replies.listing(k, service);
      if listed.None? {
        return None;
      }
      var ids := listed.value;
      var found: seq<ContainerState> := [];
      for n := 0 to |ids|
        invariant ReadFirst(replies, k, ids, n) == Some(found)
      {
        var read := if IsContainerId(ids[n]) then replies.reading(k, n, ids[n]) else None;
        if read.None? {
          ReadFirstMeaning(replies, k, ids, |ids|);
          return None;
        }
        found := found + [read.value];
      }
      return Some(found);
    }
  }

  // ------------------------------------------------------------- what is stale

  /** `/^[a-f0-9]{64}$/` */
  predicate IsNetworkId(s: string) {
    |s| == 64 && forall c | c in s :: 'a' <= c <= 'f' || '0' <= c <= '9'
  }

  function PreviousId(a: Attachment, mode: string): string {
    if a.id != "" then a.id else if IsNetworkId(mode) then mode else ""
  }

  /** A stopped container remembers a network that no longer exists. */
  predicate Lost(inventory: seq<Network>, state: ContainerState, a: Attachment) {
    && !state.running && a in state.attachments
    && PreviousId(a, state.mode) != ""
    && forall n | n in inventory :: n.id != PreviousId(a, state.mode)
  }

  ghost predicate Stale(inventory: seq<Network>, states: seq<ContainerState>) {
    exists state, a :: state in states && Lost(inventory, state, a)
  }

  /** The service still declares the network, and a network of that name exists again. */
  predicate Restorable(rm: RepairModel, inventory: seq<Network>, service: Name, network: string) {
    && (service in rm.attached && exists k | k in rm.attached[service] :: k in rm.networkNames && rm.networkNames[k] == network)
    && (exists n | n in inventory :: n.name == network)
  }

  ghost predicate AllRestorable(rm: RepairModel, inventory: seq<Network>, service: Name, states: seq<ContainerState>) {
    forall state, a | state in states && Lost(inventory, state, a) :: Restorable(rm, inventory, service, a.network)
  }

  /** The first lost network of the container that is beyond restoring. */
  ghost predicate ContainerRefused(rm: RepairModel, inventory: seq<Network>, service: Name, state: ContainerState, network: string) {
    exists n :: && 0 <= n < |state.attachments| && state.attachments[n].network == network
                && Lost(inventory, state, state.attachments[n]) && !Restorable(rm, inventory, service, network)
                && forall i | 0 <= i < n && Lost(inventory, state, state.attachments[i]) ::
                     Restorable(rm, inventory, service, state.attachments[i].network)
  }

  /** The first such network of the first such container. */
  ghost predicate Unrestorable(rm: RepairModel, inventory: seq<Network>, service: Name, states: seq<ContainerState>, network: string) {
    exists i :: 0 <= i < |states| && ContainerRefused(rm, inventory, service, states[i], network)
                && AllRestorable(rm, inventory, service, states[..i])
  }

  lemma UnrestorableMeans(rm: RepairModel, inventory: seq<Network>, service: Name, states: seq<ContainerState>, network: string)
    requires Unrestorable(rm, inventory, service, states, network)
    ensures !AllRestorable(rm, inventory, service, states)
  {
    var i :| 0 <= i < |states| && ContainerRefused(rm, inventory, service, states[i], network);
    var n :| 0 <= n < |states[i].attachments| && states[i].attachments[n].network == network
      && Lost(inventory, states[i], states[i].attachments[n]) && !Restorable(rm, inventory, service, network);
    assert states[i] in states && Lost(inventory, states[i], states[i].attachments[n]);
  }

  predicate Stopped(states: seq<ContainerState>) {
    forall state | state in states :: !state.running
  }

  /** Requested services of the model that carry the repair label. */
  function Enabled(rm: RepairModel, requested: seq<Name>): (r: seq<Name>)
    ensures forall s :: s in r <==> s in requested && s in rm.compose.services && s in rm.labelled
  {
    if requested == [] then []
    else
      var front, last := requested[..|requested| - 1], requested[|requested| - 1];
      assert requested == front + [last];
      if last in rm.compose.services && last in rm.labelled then Enabled(rm, front) + [last] else Enabled(rm, front)
  }

  /** The service, once for every lost network among the first `n` attachments. */
  function LostNames(inventory: seq<Network>, service: Name, state: ContainerState, n: nat): seq<Name>
    requires n <= |state.attachments|
  {
    if n == 0 then []
    else LostNames(inventory, service, state, n - 1) + if Lost(inventory, state, state.attachments[n - 1]) then [service] else []
  }

  function StaleNames(inventory: seq<Network>, service: Name, states: seq<ContainerState>): seq<Name> {
    if states == [] then []
    else
      var last := states[|states| - 1];
      StaleNames(inventory, service, states[..|states| - 1]) + LostNames(inventory, service, last, |last.attachments|)
  }

  /** Those of the services observed with a lost network, in order, with repetitions. */
  function StaleAmong(inventory: seq<Network>, services: seq<Name>, seen: Observation): seq<Name> {
    if services == [] then []
    else
      var last := services[|services| - 1];
      StaleAmong(inventory, services[..|services| - 1], seen) + if last in seen then StaleNames(inventory, last, seen[last]) else []
  }

  lemma {:induction false} LostNamesMeaning(inventory: seq<Network>, service: Name, state: ContainerState, n: nat)
    requires n <= |state.attachments|
    ensures forall s | s in LostNames(inventory, service, state, n) :: s == service
    ensures LostNames(inventory, service, state, n) != [] <==> exists i :: 0 <= i < n && Lost(inventory, state, state.attachments[i])
  {
    if n == 0 {
    } else {
      LostNamesMeaning(inventory, service, state, n - 1);
    }
  }

  lemma StaleOne(inventory: seq<Network>, states: seq<ContainerState>, state: ContainerState)
    ensures Stale(inventory, states + [state]) <==>
              Stale(inventory, states) || exists i :: 0 <= i < |state.attachments| && Lost(inventory, state, state.attachments[i])
  {
    if i :| 0 <= i < |state.attachments| && Lost(inventory, state, state.attachments[i]) {
      assert state in states + [state];
    }
    if s, a :| s in states && Lost(inventory, s, a) {
      assert s in states + [state];
    }
    if s, a :| s in states + [state] && Lost(inventory, s, a) {
      var i :| 0 <= i < |s.attachments| && s.attachments[i] == a;
    }
  }

  lemma {:induction false} StaleNamesMeaning(inventory: seq<Network>, service: Name, states: seq<ContainerState>)
    ensures forall s | s in StaleNames(inventory, service, states) :: s == service
    ensures StaleNames(inventory, service, states) != [] <==> Stale(inventory, states)
  {
    if states == [] {
    } else {
      var front, last := states[..|states| - 1], states[|states| - 1];
      assert states == front + [last];
      StaleNamesMeaning(inventory, service, front);
      LostNamesMeaning(inventory, service, last, |last.attachments|);
      StaleOne(inventory, front, last);
    }
  }

  lemma {:induction false} StaleAmongMeaning(inventory: seq<Network>, services: seq<Name>, seen: Observation, s: Name)
    ensures s in StaleAmong(inventory, services, seen) <==> s in services && s in seen && Stale(inventory, seen[s])
  {
    if services == [] {
    } else {
      var front, last := services[..|services| - 1], services[|services| - 1];
      assert services == front + [last];
      StaleAmongMeaning(inventory, front, seen, s);
      if last in seen {
        var names := StaleNames(inventory, last, seen[last]);
        StaleNamesMeaning(inventory, last, seen[last]);
        if names != [] { assert names[0] in names; }
      }
    }
  }

  // ---------------------------------------------------------------- the outcome

  /** No service was inspected twice, every answer is remembered, and only the last one can have failed. */
  ghost predicate Recorded(answer: (nat, Name) -> Option<seq<ContainerState>>, start: nat, asked: seq<Name>, seen: Observation, failed: bool) {
    && Distinct(asked)
    && (failed ==> asked != [])
    && seen.Keys == Elements(if failed then asked[..|asked| - 1] else asked)
    && forall i | 0 <= i < |asked| ::
         answer(start + i, asked[i]) == if failed && i == |asked| - 1 then None else Some(seen[asked[i]])
  }

  /** Every enabled service was observed, and each network it lost is configured and exists again. */
  ghost predicate MayRepair(rm: RepairModel, requested: seq<Name>, inventory: seq<Network>, seen: Observation) {
    forall s | s in Enabled(rm, requested) :: s in seen && AllRestorable(rm, inventory, s, seen[s])
  }

  ghost predicate Outcome(rm: RepairModel, requested: seq<Name>, inventory: Option<seq<Network>>, seen: Observation,
                          failed: bool, r: Result<seq<Name>, RepairError>)
  {
    if Enabled(rm, requested) == [] then r == Ok([]) && !failed
    else if inventory.None? then r == Err(ReadFailed) && !failed
    else
      var stale := StaleAmong(inventory.value, Enabled(rm, requested), seen);
      match r
      case Ok(targets) =>
        && !failed && MayRepair(rm, requested, inventory.value, seen)
        && (if stale == [] then targets == []
            else IsTargetList(rm.compose, stale, targets) && AllStopped(targets, seen))
      case Err(ReadFailed) => failed
      case Err(Refused(s, network)) =>
        !failed && IsRefusal(rm, inventory.value, Enabled(rm, requested), seen, Refused(s, network))
      case Err(StillRunning(t)) =>
        && !failed && MayRepair(rm, requested, inventory.value, seen)
        && exists targets :: IsTargetList(rm.compose, stale, targets) && FirstRunning(targets, seen, t)
  }

  // ------------------------------------------------------------------- planning

  ghost predicate Extends(seen: Observation, more: Observation) {
    forall s | s in seen :: s in more && more[s] == seen[s]
  }

  /** The inspections `log` since `before` are recorded in `seen`. */
  ghost predicate Logged(docker: Docker, before: seq<Name>, log: seq<Name>, seen: Observation, failed: bool)
    reads docker
  {
    docker.asked == before + log && Recorded(AnswerOf(docker.replies), |before|, log, seen, failed)
  }

  /** The cached inspection of a service. */
  method InspectOnce(docker: Docker, service: Name, containers: Observation, ghost before: seq<Name>, ghost log: seq<Name>)
    returns (states: Option<seq<ContainerState>>, containers': Observation, ghost log': seq<Name>)
    requires Logged(docker, before, log, containers, false)
    modifies docker
    ensures Logged(docker, before, log', containers', states.None?)
    ensures Extends(containers, containers')
    ensures states.Some? ==> service in containers' && containers'[service] == states.value
  {
    if service in containers {
      return Some(containers[service]), containers, log;
    }
    states := docker.Inspect(service);
    log' := log + [service];
    assert docker.asked == before + log';
    containers' := if states.Some? then containers[service := states.value] else containers;
    RecordOne(AnswerOf(docker.replies), |before|, log, containers, service, states, containers');
  }

  lemma RecordOne(answer: (nat, Name) -> Option<seq<ContainerState>>, start: nat, asked: seq<Name>, seen: Observation,
                  service: Name, states: Option<seq<ContainerState>>, seen': Observation)
    requires Recorded(answer, start, asked, seen, false) && service !in seen && states == answer(start + |asked|, service)
    requires seen' == if states.Some? then seen[service := states.value] else seen
    ensures Recorded(answer, start, asked + [service], seen', states.None?)
  {
    var all := asked + [service];
    assert all[..|all| - 1] == asked;
    forall i | 0 <= i < |asked| ensures all[i] in seen && all[i] != service {
      assert asked[i] in Elements(asked);
    }
  }

  /** The loop over the attachments of one stopped container. */
  method ScanContainer(rm: RepairModel, inventory: seq<Network>, service: Name, state: ContainerState, stale0: seq<Name>)
    returns (r: Result<seq<Name>, RepairError>)
    requires !state.running
    ensures r.Ok? ==> r.value == stale0 + LostNames(inventory, service, state, |state.attachments|)
                      && AllRestorable(rm, inventory, service, [state])
    ensures r.Err? ==> r.error.Refused? && r.error.service == service
                       && ContainerRefused(rm, inventory, service, state, r.error.network)
  {
    var stale := stale0;
    for n := 0 to |state.attachments|
      invariant stale == stale0 + LostNames(inventory, service, state, n)
      invariant forall i | 0 <= i < n && Lost(inventory, state, state.attachments[i]) ::
                  Restorable(rm, inventory, service, state.attachments[i].network)
    {
      var a := state.attachments[n];
      if Lost(inventory, state, a) {
        if !Restorable(rm, inventory, service, a.network) {
          return Err(Refused(service, a.network));
        }
        stale := stale + [service];
      }
    }
    return Ok(stale);
  }

  lemma RunningLosesNothing(inventory: seq<Network>, service: Name, state: ContainerState)
    requires state.running
    ensures LostNames(inventory, service, state, |state.attachments|) == []
  {
    LostNamesMeaning(inventory, service, state, |state.attachments|);
  }

  lemma ScannedNext(rm: RepairModel, inventory: seq<Network>, service: Name, states: seq<ContainerState>, i: nat)
    requires i < |states| && AllRestorable(rm, inventory, service, states[..i])
    requires states[i].running || AllRestorable(rm, inventory, service, [states[i]])
    ensures AllRestorable(rm, inventory, service, states[..i + 1])
    ensures StaleNames(inventory, service, states[..i + 1]) ==
            StaleNames(inventory, service, states[..i]) + LostNames(inventory, service, states[i], |states[i].attachments|)
  {
    assert states[..i + 1][..i] == states[..i];
    assert states[i] in [states[i]];
  }

  /** The loop over the containers of one service. */
  method ScanService(rm: RepairModel, inventory: seq<Network>, service: Name, states: seq<ContainerState>, stale0: seq<Name>)
    returns (r: Result<seq<Name>, RepairError>)
    ensures r.Ok? ==> r.value == stale0 + StaleNames(inventory, service, states) && AllRestorable(rm, inventory, service, states)
    ensures r.Err? ==> r.error.Refused? && r.error.service == service
                       && Unrestorable(rm, inventory, service, states, r.error.network)
  {
    r := Ok(stale0);
    for i := 0 to |states|
      invariant r.Ok? && r.value == stale0 + StaleNames(inventory, service, states[..i])
      invariant AllRestorable(rm, inventory, service, states[..i])
    {
      var state := states[i];
      ghost var stale := r.value;
      if state.running {
        RunningLosesNothing(inventory, service, state);
      } else {
        r := ScanContainer(rm, inventory, service, state, r.value);
        if r.Err? {
          return;
        }
      }
      ScannedNext(rm, inventory, service, states, i);
      assert r.value == stale + LostNames(inventory, service, state, |state.attachments|);
    }
    assert states[..|states|] == states;
  }

  lemma {:induction false} StaleAmongKept(inventory: seq<Network>, services: seq<Name>, seen: Observation, seen': Observation)
    requires Extends(seen, seen') && forall s | s in services :: s in seen
    ensures StaleAmong(inventory, services, seen') == StaleAmong(inventory, services, seen)
  {
    if services == [] {
    } else {
      StaleAmongKept(inventory, services[..|services| - 1], seen, seen');
    }
  }

  /** The first `n` enabled services have been examined. */
  ghost predicate Examined(rm: RepairModel, inventory: seq<Network>, services: seq<Name>, seen: Observation, stale: seq<Name>) {
    && (forall s | s in services :: s in seen && AllRestorable(rm, inventory, s, seen[s]))
    && stale == StaleAmong(inventory, services, seen)
  }

  lemma StaleAmongNext(inventory: seq<Network>, services: seq<Name>, i: nat, seen: Observation)
    requires i < |services| && services[i] in seen
    ensures StaleAmong(inventory, services[..i + 1], seen) ==
            StaleAmong(inventory, services[..i], seen) + StaleNames(inventory, services[i], seen[services[i]])
  {
    assert services[..i + 1][..i] == services[..i];
  }

  lemma RestorableKept(rm: RepairModel, inventory: seq<Network>, services: seq<Name>, i: nat, seen: Observation, seen': Observation)
    requires i < |services| && Extends(seen, seen')
    requires forall s | s in services[..i] :: s in seen && AllRestorable(rm, inventory, s, seen[s])
    requires services[i] in seen' && AllRestorable(rm, inventory, services[i], seen'[services[i]])
    ensures forall s | s in services[..i + 1] :: s in seen' && AllRestorable(rm, inventory, s, seen'[s])
  {
    assert services[..i + 1] == services[..i] + [services[i]];
    forall s | s in services[..i + 1] ensures s in seen' && AllRestorable(rm, inventory, s, seen'[s]) {
      if s != services[i] {
        assert s in services[..i] && s in seen;
      }
    }
  }

  lemma ExamineOne(rm: RepairModel, inventory: seq<Network>, services: seq<Name>, i: nat, seen: Observation, seen': Observation,
                   stale: seq<Name>)
    requires i < |services| && Examined(rm, inventory, services[..i], seen, stale) && Extends(seen, seen')
    requires services[i] in seen' && AllRestorable(rm, inventory, services[i], seen'[services[i]])
    ensures Examined(rm, inventory, services[..i + 1], seen', stale + StaleNames(inventory, services[i], seen'[services[i]]))
  {
    StaleAmongKept(inventory, services[..i], seen, seen');
    StaleAmongNext(inventory, services, i, seen');
    RestorableKept(rm, inventory, services, i, seen, seen');
  }

  /** The first service that may not be repaired, and why. */
  ghost predicate IsRefusal(rm: RepairModel, inventory: seq<Network>, services: seq<Name>, seen: Observation, e: RepairError) {
    && e.Refused? && e.service in seen && Unrestorable(rm, inventory, e.service, seen[e.service], e.network)
    && exists i :: 0 <= i < |services| && services[i] == e.service
                   && forall j | 0 <= j < i :: services[j] in seen && AllRestorable(rm, inventory, services[j], seen[services[j]])
  }

  lemma RefuseOne(rm: RepairModel, inventory: seq<Network>, services: seq<Name>, i: nat, seen: Observation,
                  seen': Observation, stale: seq<Name>, e: RepairError)
    requires i < |services| && Examined(rm, inventory, services[..i], seen, stale) && Extends(seen, seen')
    requires e.Refused? && e.service == services[i] && e.service in seen'
    requires Unrestorable(rm, inventory, e.service, seen'[e.service], e.network)
    ensures IsRefusal(rm, inventory, services, seen', e)
  {
    forall j | 0 <= j < i ensures services[j] in seen' && AllRestorable(rm, inventory, services[j], seen'[services[j]]) {
      assert services[j] in services[..i];
    }
  }

  /** Inspect the next service and scan its containers. */
  method ExamineService(rm: RepairModel, inventory: seq<Network>, services: seq<Name>, i: nat, docker: Docker,
                        ghost before: seq<Name>, ghost log0: seq<Name>, seen0: Observation, stale: seq<Name>)
    returns (r: Result<seq<Name>, RepairError>, seen: Observation, ghost log: seq<Name>)
    requires i < |services| && Examined(rm, inventory, services[..i], seen0, stale)
    requires Logged(docker, before, log0, seen0, false)
    modifies docker
    ensures r != Err(ReadFailed) ==> Logged(docker, before, log, seen, false)
    ensures r == Err(ReadFailed) ==> Logged(docker, before, log, seen, true)
    ensures r.Ok? ==> Examined(rm, inventory, services[..i + 1], seen, r.value)
    ensures r.Err? && r.error != ReadFailed ==> IsRefusal(rm, inventory, services, seen, r.error)
  {
    var service := services[i];
    var states;
    states, seen, log := InspectOnce(docker, service, seen0, before, log0);
    if states.None? {
      return Err(ReadFailed), seen, log;
    }
    r := ScanService(rm, inventory, service, states.value, stale);
    if r.Ok? {
      ExamineOne(rm, inventory, services, i, seen0, seen, stale);
    } else {
      RefuseOne(rm, inventory, services, i, seen0, seen, stale, r.error);
    }
  }

  lemma NothingYet(rm: RepairModel, inventory: seq<Network>, docker: Docker)
    ensures Logged(docker, docker.asked, [], map[], false) && Examined(rm, inventory, [], map[], [])
  {
    assert docker.asked + [] == docker.asked;
  }

  method ExamineServices(rm: RepairModel, inventory: seq<Network>, services: seq<Name>, docker: Docker)
    returns (r: Result<seq<Name>, RepairError>, seen: Observation, ghost log: seq<Name>)
    modifies docker
    ensures r != Err(ReadFailed) ==> Logged(docker, old(docker.asked), log, seen, false)
    ensures r == Err(ReadFailed) ==> Logged(docker, old(docker.asked), log, seen, true)
    ensures r.Ok? ==> Examined(rm, inventory, services, seen, r.value)
    ensures r.Err? && r.error != ReadFailed ==> IsRefusal(rm, inventory, services, seen, r.error)
  {
    ghost var before := docker.asked;
    seen, log, r := map[], [], Ok([]);
    NothingYet(rm, inventory, docker);
    for i := 0 to |services|
      invariant r.Ok? && Logged(docker, before, log, seen, false)
      invariant Examined(rm, inventory, services[..i], seen, r.value)
    {
      r, seen, log := ExamineService(rm, inventory, services, i, docker, before, log, seen, r.value);
      if r.Err? {
        return;
      }
    }
    assert services[..|services|] == services;
  }

  ghost predicate AllStopped(targets: seq<Name>, seen: Observation) {
    forall t | t in targets :: t in seen && Stopped(seen[t])
  }

  /** The first target that was seen running. */
  ghost predicate FirstRunning(targets: seq<Name>, seen: Observation, t: Name) {
    exists i :: 0 <= i < |targets| && targets[i] == t && t in seen && !Stopped(seen[t]) && AllStopped(targets[..i], seen)
  }

  lemma StopNext(targets: seq<Name>, i: nat, seen: Observation, more: Observation)
    requires i < |targets| && AllStopped(targets[..i], seen) && Extends(seen, more) && targets[i] in more
    ensures if Stopped(more[targets[i]]) then AllStopped(targets[..i + 1], more) else FirstRunning(targets, more, targets[i])
  {
    assert AllStopped(targets[..i], more);
    assert targets[..i + 1] == targets[..i] + [targets[i]];
  }

  /** Look at the next target, unless it has been looked at before. */
  method CheckTarget(targets: seq<Name>, i: nat, docker: Docker, ghost before: seq<Name>, ghost log0: seq<Name>, seen0: Observation)
    returns (r: Result<(), RepairError>, seen: Observation, ghost log: seq<Name>)
    requires i < |targets| && AllStopped(targets[..i], seen0)
    requires Logged(docker, before, log0, seen0, false)
    modifies docker
    ensures r != Err(ReadFailed) ==> Logged(docker, before, log, seen, false)
    ensures r == Err(ReadFailed) ==> Logged(docker, before, log, seen, true)
    ensures Extends(seen0, seen)
    ensures r.Ok? ==> AllStopped(targets[..i + 1], seen)
    ensures r.Err? && r.error != ReadFailed ==> r.error.StillRunning? && FirstRunning(targets, seen, r.error.service)
  {
    var states;
    states, seen, log := InspectOnce(docker, targets[i], seen0, before, log0);
    if states.None? {
      return Err(ReadFailed), seen, log;
    }
    StopNext(targets, i, seen0, seen);
    return if Stopped(states.value) then Ok(()) else Err(StillRunning(targets[i])), seen, log;
  }

  lemma ExtendsOn(a: Observation, b: Observation, c: Observation)
    requires Extends(a, b) && Extends(b, c)
    ensures Extends(a, c)
  {
  }

  /** The last loop: a target that still runs is never recreated. */
  method CheckStopped(targets: seq<Name>, docker: Docker, ghost before: seq<Name>, ghost log0: seq<Name>, seen0: Observation)
    returns (r: Result<(), RepairError>, seen: Observation, ghost log: seq<Name>)
    requires Logged(docker, before, log0, seen0, false)
    modifies docker
    ensures r != Err(ReadFailed) ==> Logged(docker, before, log, seen, false)
    ensures r == Err(ReadFailed) ==> Logged(docker, before, log, seen, true)
    ensures Extends(seen0, seen)
    ensures r.Ok? ==> AllStopped(targets, seen)
    ensures r.Err? && r.error != ReadFailed ==> r.error.StillRunning? && FirstRunning(targets, seen, r.error.service)
  {
    seen, log, r := seen0, log0, Ok(());
    for i := 0 to |targets|
      invariant r.Ok? && Logged(docker, before, log, seen, false)
      invariant Extends(seen0, seen) && AllStopped(targets[..i], seen)
    {
      ghost var seen1 := seen;
      r, seen, log := CheckTarget(targets, i, docker, before, log, seen);
      ExtendsOn(seen0, seen1, seen);
      if r.Err? {
        return;
      }
    }
    assert targets[..|targets|] == targets;
  }

  lemma MayRepairKept(rm: RepairModel, requested: seq<Name>, inventory: seq<Network>, seen: Observation, seen': Observation,
                      stale: seq<Name>)
    requires Examined(rm, inventory, Enabled(rm, requested), seen, stale) && Extends(seen, seen')
    ensures MayRepair(rm, requested, inventory, seen')
    ensures stale == StaleAmong(inventory, Enabled(rm, requested), seen')
    ensures forall s | s in stale :: s in rm.compose.services
  {
    StaleAmongKept(inventory, Enabled(rm, requested), seen, seen');
    forall s | s in stale ensures s in rm.compose.services {
      StaleAmongMeaning(inventory, Enabled(rm, requested), seen, s);
    }
  }

  method NetworkRepairTargets(rm: RepairModel, requested: seq<Name>, inventory: Option<seq<Network>>, docker: Docker)
    returns (r: Result<seq<Name>, RepairError>, ghost seen: Observation, ghost log: seq<Name>)
    modifies docker
    ensures exists failed :: Logged(docker, old(docker.asked), log, seen, failed) && Outcome(rm, requested, inventory, seen, failed, r)
  {
    ghost var before := docker.asked;
    seen, log := map[], [];
    var enabled := Enabled(rm, requested);
    assert Logged(docker, before, log, seen, false);
    if enabled == [] {
      assert Outcome(rm, requested, inventory, seen, false, Ok([]));
      return Ok([]), seen, log;
    }
    if inventory.None? {
      assert Outcome(rm, requested, inventory, seen, false, Err(ReadFailed));
      return Err(ReadFailed), seen, log;
    }
    var examined, containers, examinedLog := ExamineServices(rm, inventory.value, enabled, docker);
    seen, log := containers, examinedLog;
    if examined.Err? {
      assert Outcome(rm, requested, inventory, seen, examined.error == ReadFailed, examined);
      return examined, seen, log;
    }
    var stale := examined.value;
    MayRepairKept(rm, requested, inventory.value, seen, seen, stale);
    if stale == [] {
      assert Outcome(rm, requested, inventory, seen, false, Ok([]));
      return Ok([]), seen, log;
    }
    var resolved := ResolveTargets(rm.compose, stale);
    var targets := resolved.value;
    var checked, last, checkedLog := CheckStopped(targets, docker, before, log, containers);
    seen, log := last, checkedLog;
    MayRepairKept(rm, requested, inventory.value, containers, seen, stale);
    r := if checked.Ok? then Ok(targets) else Err(checked.error);
    assert Outcome(rm, requested, inventory, seen, checked == Err(ReadFailed), r);
  }

  // ---------------------------------------------------------------- consequences

  /** `t` was inspected exactly once, and seen stopped. */
  ghost predicate SeenStoppedOnce(answer: (nat, Name) -> Option<seq<ContainerState>>, start: nat, asked: seq<Name>, t: Name) {
    exists i :: 0 <= i < |asked| && asked[i] == t && answer(start + i, t).Some? && Stopped(answer(start + i, t).value)
                && forall j | 0 <= j < |asked| && j != i :: asked[j] != t
  }

  lemma ObservedOnce(answer: (nat, Name) -> Option<seq<ContainerState>>, start: nat, asked: seq<Name>, seen: Observation, t: Name)
    requires Recorded(answer, start, asked, seen, false) && t in seen && Stopped(seen[t])
    ensures SeenStoppedOnce(answer, start, asked, t)
  {
    assert t in Elements(asked);
    var i :| 0 <= i < |asked| && asked[i] == t;
    assert answer(start + i, t) == Some(seen[t]);
  }

  /** Whatever Docker answers over time: every target was looked at exactly once and seen stopped; it
      is an enabled service that lost a network, or lives in the namespace of one; every consumer
      of a target is a target too. */
  lemma RecreationIsJustified(rm: RepairModel, requested: seq<Name>, inventory: Option<seq<Network>>,
                              answer: (nat, Name) -> Option<seq<ContainerState>>, start: nat, asked: seq<Name>,
                              seen: Observation, failed: bool, targets: seq<Name>, t: Name)
    requires Recorded(answer, start, asked, seen, failed) && Outcome(rm, requested, inventory, seen, failed, Ok(targets))
    requires t in targets
    ensures SeenStoppedOnce(answer, start, asked, t)
    ensures inventory.Some? && exists s :: s in requested && s in rm.labelled && s in seen
                                           && Stale(inventory.value, seen[s]) && Depends(rm.compose, t, s)
    ensures forall c | Provider(rm.compose, c) == Some(t) :: c in targets
  {
    var stale := StaleAmong(inventory.value, Enabled(rm, requested), seen);
    var parent :| TargetListVia(rm.compose, stale, targets, parent);
    ObservedOnce(answer, start, asked, seen, t);
    var s :| s in stale && Depends(rm.compose, t, s);
    StaleAmongMeaning(inventory.value, Enabled(rm, requested), seen, s);
    forall c | Provider(rm.compose, c) == Some(t) ensures c in targets {
      ConsumerInClosure(rm.compose, stale, c, t);
    }
  }

  lemma RunningIsInClosure(rm: RepairModel, stale: seq<Name>, seen: Observation, t: Name)
    requires exists targets :: IsTargetList(rm.compose, stale, targets) && FirstRunning(targets, seen, t)
    ensures InClosure(rm.compose, stale, t) && t in seen && !Stopped(seen[t])
  {
    var targets :| IsTargetList(rm.compose, stale, targets) && FirstRunning(targets, seen, t);
    var parent :| TargetListVia(rm.compose, stale, targets, parent);
    assert t in targets;
  }

  /** A failed read, a lost network that cannot be restored or a target still running is never
      permission to recreate: a plan is made exactly when none of these was observed. */
  lemma PlanExactlyWhenSafe(rm: RepairModel, requested: seq<Name>, inventory: Option<seq<Network>>,
                            answer: (nat, Name) -> Option<seq<ContainerState>>, start: nat, asked: seq<Name>,
                            seen: Observation, failed: bool, r: Result<seq<Name>, RepairError>)
    requires Recorded(answer, start, asked, seen, failed) && Outcome(rm, requested, inventory, seen, failed, r)
    requires Enabled(rm, requested) != []
    ensures r.Ok? <==>
      && inventory.Some?
      && (forall i | 0 <= i < |asked| :: answer(start + i, asked[i]).Some?)
      && (forall s | s in Enabled(rm, requested) && s in seen :: AllRestorable(rm, inventory.value, s, seen[s]))
      && (forall t | t in seen && InClosure(rm.compose, StaleAmong(inventory.value, Enabled(rm, requested), seen), t) :: Stopped(seen[t]))
  {
    if inventory.Some? {
      var stale := StaleAmong(inventory.value, Enabled(rm, requested), seen);
      match r
      case Ok(targets) =>
        if stale != [] {
          var parent :| TargetListVia(rm.compose, stale, targets, parent);
        }
      case Err(ReadFailed) =>
        assert answer(start + |asked| - 1, asked[|asked| - 1]).None?;
      case Err(Refused(s, network)) =>
        UnrestorableMeans(rm, inventory.value, s, seen[s], network);
      case Err(StillRunning(t)) =>
        RunningIsInClosure(rm, stale, seen, t);
    }
  }

  // ------------------------------------------------- lost networks, field by field

  /** The stopped container remembers the network `id`: the reported one, or else the 64 hexadecimal
      digits its network mode consists of. */
  predicate Remembers(state: ContainerState, a: Attachment, id: string) {
    && !state.running && a in state.attachments && id != ""
    && (a.id == id
        || (a.id == "" && state.mode == id && |id| == 64 && forall c | c in id :: c in "0123456789abcdef"))
  }

  ghost predicate Gone(inventory: seq<Network>, state: ContainerState, a: Attachment) {
    exists id :: Remembers(state, a, id) && forall n | n in inventory :: n.id != id
  }

  lemma HexDigits(s: string)
    ensures (forall c | c in s :: 'a' <= c <= 'f' || '0' <= c <= '9') <==> forall c | c in s :: c in "0123456789abcdef"
  {
  }

  lemma RemembersOne(state: ContainerState, a: Attachment, id: string)
    ensures Remembers(state, a, id) <==> !state.running && a in state.attachments && id != "" && id == PreviousId(a, state.mode)
  {
    HexDigits(state.mode);
  }

  /** A network is lost exactly when the remembered one is in the inventory no more. */
  lemma LostMeans(inventory: seq<Network>, state: ContainerState, a: Attachment)
    ensures Lost(inventory, state, a) <==> Gone(inventory, state, a)
  {
    var id := PreviousId(a, state.mode);
    RemembersOne(state, a, id);
    if Gone(inventory, state, a) {
      var other :| Remembers(state, a, other) && forall n | n in inventory :: n.id != other;
      RemembersOne(state, a, other);
    }
  }

  ghost predicate Declared(rm: RepairModel, service: Name, network: string) {
    service in rm.attached
    && exists i: nat :: (i < |rm.attached[service]| && rm.attached[service][i] in rm.networkNames
                         && rm.networkNames[rm.attached[service][i]] == network)
  }

  ghost predicate ExistsAgain(inventory: seq<Network>, network: string) {
    exists i: nat :: i < |inventory| && inventory[i].name == network
  }

  lemma RestorableMeans(rm: RepairModel, inventory: seq<Network>, service: Name, network: string)
    ensures Restorable(rm, inventory, service, network) <==> Declared(rm, service, network) && ExistsAgain(inventory, network)
  {
  }

  /** A plan is only made when every network that an examined service lost is still declared by it and
      exists again under the same name. */
  lemma PlanRestoresNetworks(rm: RepairModel, requested: seq<Name>, inventory: seq<Network>, seen: Observation, failed: bool,
                             targets: seq<Name>, s: Name, state: ContainerState, a: Attachment)
    requires Outcome(rm, requested, Some(inventory), seen, failed, Ok(targets))
    requires s in requested && s in rm.compose.services && s in rm.labelled && s in seen && state in seen[s] && Gone(inventory, state, a)
    ensures Declared(rm, s, a.network) && ExistsAgain(inventory, a.network) && s in targets
  {
    LostMeans(inventory, state, a);
    RestorableMeans(rm, inventory, s, a.network);
    var stale := StaleAmong(inventory, Enabled(rm, requested), seen);
    StaleAmongMeaning(inventory, Enabled(rm, requested), seen, s);
    var parent :| TargetListVia(rm.compose, stale, targets, parent);
    DependsSelf(rm.compose, s);
  }

  /** A refusal names a service and a network it lost that it does not declare or that does not exist. */
  lemma RefusalNamesTheNetwork(rm: RepairModel, requested: seq<Name>, inventory: seq<Network>, seen: Observation, failed: bool,
                               s: Name, network: string)
    requires Outcome(rm, requested, Some(inventory), seen, failed, Err(Refused(s, network)))
    ensures s in requested && s in rm.labelled && s in seen
    ensures !Declared(rm, s, network) || !ExistsAgain(inventory, network)
    ensures exists state, a :: state in seen[s] && Gone(inventory, state, a) && a.network == network
  {
    RestorableMeans(rm, inventory, s, network);
    var i :| 0 <= i < |seen[s]| && ContainerRefused(rm, inventory, s, seen[s][i], network);
    var state := seen[s][i];
    var n :| 0 <= n < |state.attachments| && state.attachments[n].network == network
             && Lost(inventory, state, state.attachments[n]) && !Restorable(rm, inventory, s, network);
    LostMeans(inventory, state, state.attachments[n]);
    assert state in seen[s] && Gone(inventory, state, state.attachments[n]);
  }
}
