/** Planning and issuing restarts so that namespace providers run before their consumers
    (backend/compose-network-namespace.ts, lines 136-181). */
module RestartPlan {
  import opened Common
  import opened NetworkNamespace

  datatype Command = Restart(services: seq<Name>) | RestartNoDeps(service: Name)

  datatype RestartError = Unresolved(name: Name) | NothingSelected | CyclicDependency | CommandFailed(command: Command)

  /** The command runner: `accepts(i)` says whether the i-th command it is ever given succeeds. */
  class Runner {
    const accepts: nat -> bool
    var issued: seq<Command>

    constructor (accepts: nat -> bool)
      ensures this.accepts == accepts && issued == []
    {
      this.accepts := accepts;
      issued := [];
    }

    method Run(command: Command) returns (ok: bool)
      modifies this
      ensures issued == old(issued) + [command]
      ensures ok == accepts(|old(issued)|)
    {
      ok := accepts(|issued|);
      issued := issued + [command];
    }
  }

  // -------------------------------------------------------------- vocabulary

  /** `p` is a target other than `c` in whose namespace `c` lives, directly or transitively. */
  ghost predicate Follows(m: Model, requested: seq<Name>, c: Name, p: Name) {
    p != c && InClosure(m, requested, p) && Depends(m, c, p)
  }

  ghost predicate HasDependency(m: Model, requested: seq<Name>) {
    exists c, p :: InClosure(m, requested, c) && Follows(m, requested, c, p)
  }

  /** Two distinct targets each lie in the other's consumer closure. */
  ghost predicate Cyclic(m: Model, requested: seq<Name>) {
    exists a, b :: Follows(m, requested, a, b) && Follows(m, requested, b, a)
  }

  ghost predicate ProvidersFirst(m: Model, requested: seq<Name>, ordered: seq<Name>) {
    forall i, p | 0 <= i < |ordered| && Follows(m, requested, ordered[i], p) :: p in ordered[..i]
  }

  ghost predicate IsRestartOrder(m: Model, requested: seq<Name>, ordered: seq<Name>) {
    && Distinct(ordered)
    && (forall c :: c in ordered <==> InClosure(m, requested, c))
    && ProvidersFirst(m, requested, ordered)
  }

  function NoDepsCommands(names: seq<Name>): (r: seq<Command>)
    ensures |r| == |names| && forall i | 0 <= i < |names| :: r[i] == RestartNoDeps(names[i])
  {
    seq(|names|, i requires 0 <= i < |names| => RestartNoDeps(names[i]))
  }

  /** The runner, having seen `start` commands, was given the first `k` restarts and stopped
      there because of completion or of the first refusal. */
  ghost predicate RanPrefix(accepts: nat -> bool, start: nat, ordered: seq<Name>, k: nat, r: Result<(), RestartError>) {
    && k <= |ordered|
    && (forall i | start <= i < start + k - 1 :: accepts(i))
    && (match r
        case Ok(_) => k == |ordered| && (k > 0 ==> accepts(start + k - 1))
        case Err(e) => k > 0 && !accepts(start + k - 1) && e == CommandFailed(RestartNoDeps(ordered[k - 1])))
  }

  /** The commands added are restarts of the first `k` services of a providers-first order. */
  ghost predicate RanInOrder(m: Model, selected: seq<Name>, accepts: nat -> bool, before: seq<Command>, after: seq<Command>,
                             r: Result<(), RestartError>, ordered: seq<Name>, k: nat)
  {
    && IsRestartOrder(m, selected, ordered)
    && RanPrefix(accepts, |before|, ordered, k, r)
    && after == before + NoDepsCommands(ordered[..k])
  }

  // ------------------------------------------------------------- consequences

  /** A provider stands before its consumer. */
  lemma ProviderStandsBefore(m: Model, requested: seq<Name>, ordered: seq<Name>, i: nat, j: nat)
    requires IsRestartOrder(m, requested, ordered) && i < |ordered| && j < |ordered|
    requires Follows(m, requested, ordered[i], ordered[j])
    ensures j < i
  {
    assert ordered[j] in ordered[..i];
    var k :| 0 <= k < i && ordered[..i][k] == ordered[j];
    assert k == j;
  }

  /** A providers-first order of the targets exists only when no two of them form a cycle. */
  lemma OrderExcludesCycle(m: Model, requested: seq<Name>, ordered: seq<Name>)
    requires IsRestartOrder(m, requested, ordered)
    ensures !Cyclic(m, requested)
  {
    forall a, b | Follows(m, requested, a, b) ensures !Follows(m, requested, b, a) {
      if a in ordered {
        var i :| 0 <= i < |ordered| && ordered[i] == a;
        var j :| 0 <= j < |ordered| && ordered[j] == b;
        ProviderStandsBefore(m, requested, ordered, i, j);
        if Follows(m, requested, ordered[j], ordered[i]) {
          ProviderStandsBefore(m, requested, ordered, j, i);
        }
      }
    }
  }

  /** Wherever a run stops, the services it has restarted include every provider they depend on. */
  lemma RestartedPrefixIsProviderClosed(m: Model, requested: seq<Name>, ordered: seq<Name>, k: nat, c: Name, p: Name)
    requires IsRestartOrder(m, requested, ordered) && k <= |ordered|
    requires c in ordered[..k] && Follows(m, requested, c, p)
    ensures p in ordered[..k]
  {
    var i :| 0 <= i < k && ordered[..k][i] == c;
    assert p in ordered[..i];
    var j :| 0 <= j < i && ordered[..i][j] == p;
    assert ordered[..k][j] == p;
  }

  // ----------------------------------------------------------- provider table

  /** `table[c]` holds exactly the providers of `c` among the first `n` targets. */
  ghost predicate ProviderTable(m: Model, targets: seq<Name>, n: nat, table: map<Name, seq<Name>>)
    requires n <= |targets|
  {
    && table.Keys == Elements(targets)
    && forall c, p :: c in targets ==> (p in table[c] <==> p in targets[..n] && p != c && Depends(m, c, p))
  }

  lemma ConsumersOfOne(m: Model, provider: Name, r: seq<Name>)
    requires IsTargetList(m, [provider], r)
    ensures |r| > 0 && forall c :: c in r[1..] <==> c != provider && Depends(m, c, provider)
  {
    assert Dedup([provider]) == [provider];
    assert [provider] <= r;
    assert r == [provider] + r[1..];
    forall c ensures c in r <==> Depends(m, c, provider) {
      if Depends(m, c, provider) { assert InClosure(m, [provider], c); }
    }
    forall c | c in r[1..] ensures c != provider {
      var i :| 1 <= i < |r| && r[i] == c;
      assert r[0] != r[i];
    }
  }

  /** Record `provider` for each of its consumers. */
  method AddProvider(table0: map<Name, seq<Name>>, provider: Name, consumers: seq<Name>) returns (table: map<Name, seq<Name>>)
    ensures table.Keys == table0.Keys
    ensures forall c, p :: c in table ==> (p in table[c] <==> p in table0[c] || (p == provider && c in consumers))
  {
    table := table0;
    for j := 0 to |consumers|
      invariant table.Keys == table0.Keys
      invariant forall c, p :: c in table ==> (p in table[c] <==> p in table0[c] || (p == provider && c in consumers[..j]))
    {
      var consumer := consumers[j];
      if consumer in table && provider !in table[consumer] {
        table := table[consumer := table[consumer] + [provider]];
      }
      assert consumers[..j + 1] == consumers[..j] + [consumer];
    }
    assert consumers[..|consumers|] == consumers;
  }

  method BuildProviders(m: ComposeModel, targets: seq<Name>) returns (table: map<Name, seq<Name>>)
    requires forall t | t in targets :: t in m.services
    ensures ProviderTable(m, targets, |targets|, table)
  {
    table := map t | t in targets :: [];
    for i := 0 to |targets|
      invariant ProviderTable(m, targets, i, table)
    {
      var provider := targets[i];
      var closure := ResolveTargets(m, [provider]);
      ConsumersOfOne(m, provider, closure.value);
      table := AddProvider(table, provider, closure.value[1..]);
      assert targets[..i + 1] == targets[..i] + [provider];
    }
  }

  // ------------------------------------------------------- depth-first ordering

  class Planner {
    const providers: map<Name, seq<Name>>
    var visiting: set<Name>
    var visited: set<Name>
    var ordered: seq<Name>

    constructor (providers: map<Name, seq<Name>>)
      ensures this.providers == providers && visiting == {} && visited == {} && ordered == []
    {
      this.providers := providers;
      visiting, visited, ordered := {}, {}, [];
    }

    ghost predicate Valid(m: Model, requested: seq<Name>)
      reads this
    {
      && (forall c :: c in providers <==> InClosure(m, requested, c))
      && (forall c, p :: c in providers ==> (p in providers[c] <==> Follows(m, requested, c, p)))
      && visiting <= providers.Keys && visited <= providers.Keys && visiting !! visited
      && visited == Elements(ordered) && Distinct(ordered)
      && ProvidersFirst(m, requested, ordered)
    }

    /** Post-order visit; `ok` is false when the source throws its cycle error. */
    method Visit(name: Name, ghost m: Model, ghost requested: seq<Name>) returns (ok: bool)
      requires Valid(m, requested) && name in providers
      requires forall v | v in visiting :: Depends(m, v, name)
      requires name in visiting ==> Cyclic(m, requested)
      modifies this`visiting, this`visited, this`ordered
      ensures !ok ==> Cyclic(m, requested)
      ensures ok ==> Valid(m, requested) && visiting == old(visiting)
      ensures ok ==> name in visited && old(ordered) <= ordered
      decreases providers.Keys - visiting
    {
      if name in visiting {
        return false;
      }
      if name in visited {
        return true;
      }
      visiting := visiting + {name};
      var dependencies := providers[name];
      for k := 0 to |dependencies|
        invariant Valid(m, requested) && visiting == old(visiting) + {name}
        invariant forall d | d in dependencies[..k] :: d in visited
        invariant old(ordered) <= ordered
      {
        assert dependencies[k] in providers[name];
        StackReaches(m, requested, old(visiting), name, dependencies[k]);
        ok := Visit(dependencies[k], m, requested);
        if !ok {
          return false;
        }
        assert dependencies[..k + 1] == dependencies[..k] + [dependencies[k]];
      }
      assert dependencies[..|dependencies|] == dependencies;
      Leave(name, m, requested);
      assert visiting == old(visiting);
      return true;
    }

    /** All providers of the service have been placed; it comes next. */
    method Leave(name: Name, ghost m: Model, ghost requested: seq<Name>)
      requires Valid(m, requested) && name in visiting && name in providers
      requires forall d | d in providers[name] :: d in visited
      modifies this`visiting, this`visited, this`ordered
      ensures Valid(m, requested) && visiting == old(visiting) - {name}
      ensures visited == old(visited) + {name} && ordered == old(ordered) + [name]
    {
      visiting := visiting - {name};
      visited := visited + {name};
      AppendKeepsProvidersFirst(m, requested, ordered, name);
      ordered := ordered + [name];
    }
  }

  /** Everything on the stack depends on the provider about to be visited; meeting it there is a cycle. */
  lemma StackReaches(m: Model, requested: seq<Name>, stack: set<Name>, name: Name, provider: Name)
    requires forall v | v in stack :: Depends(m, v, name)
    requires InClosure(m, requested, name) && Follows(m, requested, name, provider)
    ensures forall v | v in stack + {name} :: Depends(m, v, provider)
    ensures provider in stack + {name} ==> Cyclic(m, requested)
  {
    forall v | v in stack ensures Depends(m, v, provider) {
      DependsTransitive(m, v, name, provider);
    }
    if provider in stack {
      assert Follows(m, requested, provider, name);
    }
  }

  lemma AppendKeepsProvidersFirst(m: Model, requested: seq<Name>, ordered: seq<Name>, name: Name)
    requires ProvidersFirst(m, requested, ordered)
    requires forall p | Follows(m, requested, name, p) :: p in ordered
    ensures ProvidersFirst(m, requested, ordered + [name])
  {
    var next := ordered + [name];
    forall i, p | 0 <= i < |next| && Follows(m, requested, next[i], p) ensures p in next[..i] {
      if i < |ordered| {
        assert next[..i] == ordered[..i];
      } else {
        assert next[..i] == ordered;
      }
    }
  }

  /** The complete order, or `None` when the dependencies are cyclic. */
  method PlanOrder(m: Model, requested: seq<Name>, targets: seq<Name>, providers: map<Name, seq<Name>>)
    returns (plan: Option<seq<Name>>)
    requires forall c :: c in targets <==> InClosure(m, requested, c)
    requires ProviderTable(m, targets, |targets|, providers)
    ensures plan.None? <==> Cyclic(m, requested)
    ensures plan.Some? ==> IsRestartOrder(m, requested, plan.value)
  {
    var planner := new Planner(providers);
    assert targets[..|targets|] == targets;
    for i := 0 to |targets|
      invariant planner.Valid(m, requested) && planner.providers == providers && planner.visiting == {}
      invariant forall t | t in targets[..i] :: t in planner.visited
    {
      var ok := planner.Visit(targets[i], m, requested);
      if !ok {
        return None;
      }
      assert targets[..i + 1] == targets[..i] + [targets[i]];
    }
    assert IsRestartOrder(m, requested, planner.ordered);
    OrderExcludesCycle(m, requested, planner.ordered);
    return Some(planner.ordered);
  }

  // -------------------------------------------------------------- the operation

  method RunInOrder(ordered: seq<Name>, runner: Runner) returns (r: Result<(), RestartError>, ghost k: nat)
    modifies runner
    ensures RanPrefix(runner.accepts, |old(runner.issued)|, ordered, k, r)
    ensures runner.issued == old(runner.issued) + NoDepsCommands(ordered[..k])
  {
    k := 0;
    for i := 0 to |ordered|
      invariant k == i
      invariant forall j | |old(runner.issued)| <= j < |old(runner.issued)| + i :: runner.accepts(j)
      invariant runner.issued == old(runner.issued) + NoDepsCommands(ordered[..i])
    {
      var ok := runner.Run(RestartNoDeps(ordered[i]));
      k := i + 1;
      assert NoDepsCommands(ordered[..i + 1]) == NoDepsCommands(ordered[..i]) + [RestartNoDeps(ordered[i])];
      if !ok {
        return Err(CommandFailed(RestartNoDeps(ordered[i]))), k;
      }
    }
    return Ok(()), k;
  }

  /** What a restart request may do to the runner. `selected` is the request, or every service. */
  ghost predicate RestartOutcome(m: Model, requested: Option<seq<Name>>, accepts: nat -> bool,
                                 before: seq<Command>, after: seq<Command>, r: Result<(), RestartError>)
  {
    var selected := if requested.Some? then requested.value else m.order;
    if exists s :: s in selected && s !in m.services then
      after == before && r.Err? && r.error.Unresolved? && FirstMissing(m, selected, r.error.name)
    else if selected == [] then
      after == before && r == Err(NothingSelected)
    else if Cyclic(m, selected) then
      after == before && r == Err(CyclicDependency)
    else if HasDependency(m, selected) then
      exists ordered, k: nat :: RanInOrder(m, selected, accepts, before, after, r, ordered, k)
    else
      var command := Restart(if requested.Some? then requested.value else []);
      && after == before + [command]
      && r == if accepts(|before|) then Ok(()) else Err(CommandFailed(command))
  }

  lemma TargetsAreServices(m: Model, selected: seq<Name>, targets: seq<Name>)
    requires IsTargetList(m, selected, targets) && forall s | s in selected :: s in m.services
    ensures forall t | t in targets :: t in m.services
    ensures forall c :: c in targets <==> InClosure(m, selected, c)
    ensures targets == [] <==> selected == []
  {
    forall t | t in targets ensures t in m.services {
      ClosureIsServices(m, selected, t);
    }
    if selected != [] {
      DependsSelf(m, selected[0]);
      assert InClosure(m, selected, selected[0]);
    }
    if targets != [] {
      assert InClosure(m, selected, targets[0]);
    }
  }

  lemma EmptyTableMeansIndependent(m: Model, selected: seq<Name>, targets: seq<Name>, table: map<Name, seq<Name>>)
    requires forall c :: c in targets <==> InClosure(m, selected, c)
    requires ProviderTable(m, targets, |targets|, table)
    ensures HasDependency(m, selected) <==> exists c :: c in table && table[c] != []
  {
    assert targets[..|targets|] == targets;
    if c :| c in table && table[c] != [] {
      assert table[c][0] in table[c];
      assert Follows(m, selected, c, table[c][0]);
    }
    if c, p :| InClosure(m, selected, c) && Follows(m, selected, c, p) {
      assert p in table[c];
    }
  }

  method RestartComposeServices(m: ComposeModel, requested: Option<seq<Name>>, runner: Runner) returns (r: Result<(), RestartError>)
    modifies runner
    ensures RestartOutcome(m, requested, runner.accepts, old(runner.issued), runner.issued, r)
  {
    var selected := if requested.Some? then requested.value else m.order;
    var resolved := ResolveTargets(m, selected);
    if resolved.Err? {
      assert resolved.error.name in Dedup(selected);
      return Err(Unresolved(resolved.error.name));
    }
    var targets := resolved.value;
    TargetsAreServices(m, selected, targets);
    if targets == [] {
      return Err(NothingSelected);
    }
    var providers := BuildProviders(m, targets);
    EmptyTableMeansIndependent(m, selected, targets, providers);
    if forall c | c in providers :: providers[c] == [] {
      assert !Cyclic(m, selected);
      var command := Restart(if requested.Some? then requested.value else []);
      var ok := runner.Run(command);
      return if ok then Ok(()) else Err(CommandFailed(command));
    }
    var plan := PlanOrder(m, selected, targets, providers);
    if plan.None? {
      return Err(CyclicDependency);
    }
    ghost var k;
    r, k := RunInOrder(plan.value, runner);
    assert RanInOrder(m, selected, runner.accepts, old(runner.issued), runner.issued, r, plan.value, k);
  }

  /** In a planned run the commands are distinct, and each follows those of its providers, which succeeded. */
  lemma PlannedRestarts(m: Model, selected: seq<Name>, accepts: nat -> bool, before: seq<Command>, after: seq<Command>,
                        r: Result<(), RestartError>, ordered: seq<Name>, k: nat, i: nat, c: Name, p: Name)
    requires RanInOrder(m, selected, accepts, before, after, r, ordered, k)
    requires |before| <= i < |after| && after[i] == RestartNoDeps(c) && Follows(m, selected, c, p)
    ensures exists j :: |before| <= j < i && after[j] == RestartNoDeps(p) && accepts(j)
    ensures Distinct(after[|before|..])
  {
    var at := i - |before|;
    assert after[|before|..] == NoDepsCommands(ordered[..k]);
    assert ordered[at] == c && p in ordered[..at];
    var j :| 0 <= j < at && ordered[..at][j] == p;
    assert after[|before| + j] == RestartNoDeps(p);
  }

  lemma SingleRestartsArePlanned(m: Model, requested: Option<seq<Name>>, selected: seq<Name>, accepts: nat -> bool,
                                 before: seq<Command>, after: seq<Command>, r: Result<(), RestartError>, i: nat)
    requires RestartOutcome(m, requested, accepts, before, after, r)
    requires selected == if requested.Some? then requested.value else m.order
    requires |before| <= i < |after| && after[i].RestartNoDeps?
    ensures exists ordered, k: nat :: RanInOrder(m, selected, accepts, before, after, r, ordered, k)
  {
  }

  /** However a restart ended: before a consumer was touched, each of its providers among the
      targets had been restarted, exactly once, and that restart had succeeded. */
  lemma ConsumersRestartAfterTheirProviders(m: Model, requested: Option<seq<Name>>, accepts: nat -> bool,
                                            before: seq<Command>, after: seq<Command>, r: Result<(), RestartError>,
                                            i: nat, c: Name, p: Name)
    requires RestartOutcome(m, requested, accepts, before, after, r)
    requires |before| <= i < |after| && after[i] == RestartNoDeps(c)
    requires Follows(m, if requested.Some? then requested.value else m.order, c, p)
    ensures exists j :: |before| <= j < i && after[j] == RestartNoDeps(p) && accepts(j)
    ensures Distinct(after[|before|..])
  {
    var selected := if requested.Some? then requested.value else m.order;
    SingleRestartsArePlanned(m, requested, selected, accepts, before, after, r, i);
    var ordered, k: nat :| RanInOrder(m, selected, accepts, before, after, r, ordered, k);
    PlannedRestarts(m, selected, accepts, before, after, r, ordered, k, i, c, p);
  }
}
