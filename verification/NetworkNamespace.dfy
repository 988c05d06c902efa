/** Resolution of network-namespace consumers in a resolved Compose model
    (backend/compose-network-namespace.ts, lines 55-112). */
module NetworkNamespace {
  import opened Common

  type Name = string

  /** `networkMode` and `containerName` are `Some` exactly when the source sees a string. */
  datatype Service = Service(networkMode: Option<string>, containerName: Option<string>)

  /** `order` is the enumeration order of the service table. */
  datatype Model = Model(order: seq<Name>, services: map<Name, Service>) {
    ghost predicate Valid() {
      Distinct(order) && forall n :: n in order <==> n in services
    }
  }

  type ComposeModel = m: Model | m.Valid() witness Model([], map[])

  datatype ResolveError = MissingService(name: Name)

  // ---------------------------------------------------------------- strings

  predicate IsSpace(c: char) {
    c in "\t\n\r \U{0b}\U{0c}\U{a0}\U{1680}\U{2028}\U{2029}\U{202f}\U{205f}\U{3000}\U{feff}" || '\U{2000}' <= c <= '\U{200a}'
  }

  function TrimStart(s: string): string {
    if s != [] && IsSpace(s[0]) then TrimStart(s[1..]) else s
  }

  function TrimEnd(s: string): string {
    if s != [] && IsSpace(s[|s| - 1]) then TrimEnd(s[..|s| - 1]) else s
  }

  function Trim(s: string): string {
    TrimEnd(TrimStart(s))
  }

  predicate LexLess(a: string, b: string) {
    b != [] && (a == [] || a[0] < b[0] || (a[0] == b[0] && LexLess(a[1..], b[1..])))
  }

  lemma LexTotal(a: string, b: string)
    ensures LexLess(a, b) || a == b || LexLess(b, a)
  {
    if a != [] && b != [] && a[0] == b[0] {
      LexTotal(a[1..], b[1..]);
      if a[1..] == b[1..] {
        assert a == [a[0]] + a[1..] && b == [b[0]] + b[1..];
      }
    }
  }

  lemma LexAsymmetric(a: string, b: string)
    requires LexLess(a, b)
    ensures !LexLess(b, a) && a != b
  {
  }

  lemma LexTransitive(a: string, b: string, c: string)
    requires LexLess(a, b) && LexLess(b, c)
    ensures LexLess(a, c)
  {
  }

  ghost predicate StrictlySorted(s: seq<Name>) {
    forall i, j | 0 <= i < j < |s| :: LexLess(s[i], s[j])
  }

  function Insert(x: Name, s: seq<Name>): (r: seq<Name>)
    requires StrictlySorted(s) && x !in s
    ensures StrictlySorted(r)
    ensures forall y :: y in r <==> y == x || y in s
  {
    if s == [] then [x]
    else if LexLess(x, s[0]) then
      assert forall j | 0 <= j < |s| :: LexLess(x, s[j]) by {
        forall j | 0 < j < |s| ensures LexLess(x, s[j]) { LexTransitive(x, s[0], s[j]); }
      }
      [x] + s
    else
      var rest := Insert(x, s[1..]);
      assert LexLess(s[0], x) by { LexTotal(x, s[0]); }
      assert forall j | 0 <= j < |rest| :: LexLess(s[0], rest[j]) by {
        forall j | 0 <= j < |rest| ensures LexLess(s[0], rest[j]) { assert rest[j] in rest; }
      }
      [s[0]] + rest
  }

  /** `[...names].sort()` for a duplicate-free collection. */
  function Sort(s: seq<Name>): (r: seq<Name>)
    requires Distinct(s)
    ensures StrictlySorted(r)
    ensures forall y :: y in r <==> y in s
  {
    if s == [] then [] else Insert(s[0], Sort(s[1..]))
  }

  // ------------------------------------------------------ consumer / provider

  /** The usable `container_name` of a service. */
  function DeclaredContainer(s: Service): Option<string> {
    if s.containerName.Some? && Trim(s.containerName.value) != "" then Some(Trim(s.containerName.value)) else None
  }

  /** Last of the first `n` services declaring container name `c`. */
  function ContainerOwner(m: Model, n: nat, c: string): (r: Option<Name>)
    requires n <= |m.order|
    ensures r.Some? ==> r.value in m.services
  {
    if n == 0 then None
    else if m.order[n - 1] in m.services && DeclaredContainer(m.services[m.order[n - 1]]) == Some(c) then Some(m.order[n - 1])
    else ContainerOwner(m, n - 1, c)
  }

  /** An empty provider name counts as no provider. */
  function NonEmpty(n: Option<Name>): Option<Name> {
    if n == Some("") then None else n
  }

  /** The service whose network namespace `name` joins, if it is part of this model. */
  function Provider(m: Model, name: Name): (r: Option<Name>)
    ensures r.Some? ==> name in m.services && r.value in m.services
  {
    if name !in m.services || m.services[name].networkMode.None? then None
    else
      var mode := m.services[name].networkMode.value;
      if "service:" <= mode then
        var reference := mode[|"service:"|..];
        NonEmpty(if reference in m.services then Some(reference) else None)
      else if "container:" <= mode then
        NonEmpty(ContainerOwner(m, |m.order|, mode[|"container:"|..]))
      else None
  }

  /** The service reached from `c` after following `n` provider edges. */
  ghost function Up(m: Model, c: Name, n: nat): Option<Name>
    decreases n
  {
    if n == 0 then Some(c)
    else match Provider(m, c)
      case None => None
      case Some(p) => Up(m, p, n - 1)
  }

  /** `c` lives, directly or transitively, in the namespace of `p` (or is `p`). */
  ghost predicate Depends(m: Model, c: Name, p: Name) {
    exists n: nat :: Up(m, c, n) == Some(p)
  }

  ghost predicate InClosure(m: Model, requested: seq<Name>, c: Name) {
    exists p :: p in requested && Depends(m, c, p)
  }

  lemma {:induction false} UpCompose(m: Model, a: Name, i: nat, b: Name, j: nat)
    requires Up(m, a, i) == Some(b)
    ensures Up(m, a, i + j) == Up(m, b, j)
    decreases i
  {
    if i == 0 {
    } else {
      UpCompose(m, Provider(m, a).value, i - 1, b, j);
    }
  }

  lemma DependsTransitive(m: Model, a: Name, b: Name, c: Name)
    requires Depends(m, a, b) && Depends(m, b, c)
    ensures Depends(m, a, c)
  {
    var i: nat :| Up(m, a, i) == Some(b);
    var j: nat :| Up(m, b, j) == Some(c);
    UpCompose(m, a, i, b, j);
  }

  lemma DependsSelf(m: Model, a: Name)
    ensures Depends(m, a, a)
  {
    assert Up(m, a, 0) == Some(a);
  }

  lemma DependsOnProvider(m: Model, c: Name, p: Name)
    requires Provider(m, c) == Some(p)
    ensures Depends(m, c, p)
  {
    assert Up(m, p, 0) == Some(p);
    assert Up(m, c, 1) == Some(p);
  }

  lemma {:induction false} UpIsService(m: Model, c: Name, n: nat)
    requires Up(m, c, n).Some? && Up(m, c, n).value in m.services
    ensures c in m.services
    decreases n
  {
    if n == 0 {
    } else {
      UpIsService(m, Provider(m, c).value, n - 1);
    }
  }

  lemma ClosureIsServices(m: Model, requested: seq<Name>, c: Name)
    requires InClosure(m, requested, c) && forall s | s in requested :: s in m.services
    ensures c in m.services
  {
    var p :| p in requested && Depends(m, c, p);
    var n: nat :| Up(m, c, n) == Some(p);
    UpIsService(m, c, n);
  }

  ghost predicate ConsumerClosed(m: Model, s: set<Name>) {
    forall c | Provider(m, c).Some? && Provider(m, c).value in s :: c in s
  }

  lemma {:induction false} ClosedContainsDependents(m: Model, s: set<Name>, c: Name, n: nat)
    requires ConsumerClosed(m, s) && Up(m, c, n).Some? && Up(m, c, n).value in s
    ensures c in s
    decreases n
  {
    if n == 0 {
    } else {
      ClosedContainsDependents(m, s, Provider(m, c).value, n - 1);
    }
  }

  /** The closure is the least consumer-closed set holding the request. */
  lemma ClosureIsLeast(m: Model, requested: seq<Name>, s: set<Name>, c: Name)
    requires ConsumerClosed(m, s) && (forall r | r in requested :: r in s)
    requires InClosure(m, requested, c)
    ensures c in s
  {
    var p :| p in requested && Depends(m, c, p);
    var n: nat :| Up(m, c, n) == Some(p);
    ClosedContainsDependents(m, s, c, n);
  }

  // ------------------------------------------------------------ target lists

  /** Every entry from `start` on comes after its provider, entries are grouped by provider, and
      consumers of one provider are in name order. */
  ghost predicate BreadthFirst(m: Model, start: nat, r: seq<Name>, parent: seq<nat>) {
    && |parent| == |r|
    && (forall i | start <= i < |r| :: parent[i] < i && Provider(m, r[i]) == Some(r[parent[i]]))
    && (forall i, j | start <= i < j < |r| :: parent[i] < parent[j] || (parent[i] == parent[j] && LexLess(r[i], r[j])))
  }

  /** `r` lists the closure breadth first; `parent[i]` is the position of the provider of `r[i]`. */
  ghost predicate TargetListVia(m: Model, requested: seq<Name>, r: seq<Name>, parent: seq<nat>) {
    && Dedup(requested) <= r
    && Distinct(r)
    && (forall c :: c in r <==> InClosure(m, requested, c))
    && BreadthFirst(m, |Dedup(requested)|, r, parent)
  }

  ghost predicate IsTargetList(m: Model, requested: seq<Name>, r: seq<Name>) {
    exists parent :: TargetListVia(m, requested, r, parent)
  }

  lemma BreadthFirstStep(m: Model, start: nat, r1: seq<Name>, p1: seq<nat>, r2: seq<Name>, p2: seq<nat>, k: nat)
    requires BreadthFirst(m, start, r1, p1) && BreadthFirst(m, start, r2, p2) && Distinct(r1) && Distinct(r2)
    requires start <= k < |r1| == |r2| && r1[..k] == r2[..k] && r1[k] in r2 && r2[k] in r1
    ensures r1[k] == r2[k]
  {
    if r1[k] != r2[k] {
      var j1 := LaterPosition(r1, r2, k);
      var j2 := LaterPosition(r2, r1, k);
      SamePosition(r1, r2, k, p1[k], p2[j2]);
      SamePosition(r2, r1, k, p2[k], p1[j1]);
      NoTwoOrders(p1[k], p1[j1], r1[k], r2[k]);
    }
  }

  /** Where `r2[k]` occurs in `r1`, when the lists agree up to `k` but not at `k`. */
  lemma LaterPosition(r1: seq<Name>, r2: seq<Name>, k: nat) returns (j: nat)
    requires k < |r1| && k < |r2| && r1[..k] == r2[..k] && r1[k] != r2[k] && Distinct(r2) && r2[k] in r1
    ensures k < j < |r1| && r1[j] == r2[k]
  {
    j :| j < |r1| && r1[j] == r2[k];
    assert forall i | 0 <= i < k :: r1[i] == r1[..k][i] == r2[i];
  }

  lemma NoTwoOrders(i: nat, j: nat, a: Name, b: Name)
    requires i < j || (i == j && LexLess(a, b))
    ensures !(j < i || (i == j && LexLess(b, a)))
  {
    if i == j {
      LexAsymmetric(a, b);
    }
  }

  lemma SamePosition(r1: seq<Name>, r2: seq<Name>, k: nat, i: nat, j: nat)
    requires k <= |r1| && k <= |r2| && r1[..k] == r2[..k] && Distinct(r2)
    requires i < k && j < |r2| && r1[i] == r2[j]
    ensures i == j
  {
    assert r2[..k][i] == r2[j];
  }

  lemma {:induction false} BreadthFirstUnique(m: Model, start: nat, r1: seq<Name>, p1: seq<nat>, r2: seq<Name>, p2: seq<nat>, k: nat)
    requires BreadthFirst(m, start, r1, p1) && BreadthFirst(m, start, r2, p2) && Distinct(r1) && Distinct(r2)
    requires |r1| == |r2| && Elements(r1) == Elements(r2)
    requires start <= k <= |r1| && r1[..k] == r2[..k]
    ensures r1 == r2
    decreases |r1| - k
  {
    if k == |r1| {
      assert r1[..k] == r1 && r2[..k] == r2;
    } else {
      assert r1[k] in Elements(r1) && r2[k] in Elements(r2);
      BreadthFirstStep(m, start, r1, p1, r2, p2, k);
      assert r1[..k + 1] == r1[..k] + [r1[k]] && r2[..k + 1] == r2[..k] + [r2[k]];
      BreadthFirstUnique(m, start, r1, p1, r2, p2, k + 1);
    }
  }

  /** The closure, and the breadth-first rule, determine the list completely. */
  lemma TargetListUnique(m: Model, requested: seq<Name>, r1: seq<Name>, r2: seq<Name>)
    requires IsTargetList(m, requested, r1) && IsTargetList(m, requested, r2)
    ensures r1 == r2
  {
    var p1 :| TargetListVia(m, requested, r1, p1);
    var p2 :| TargetListVia(m, requested, r2, p2);
    assert Elements(r1) == Elements(r2);
    DistinctCardinality(r1);
    DistinctCardinality(r2);
    BreadthFirstUnique(m, |Dedup(requested)|, r1, p1, r2, p2, |Dedup(requested)|);
  }

  // ------------------------------------------------------------ the algorithm

  method IndexContainers(m: ComposeModel) returns (owner: map<string, Name>)
    ensures forall c :: c in owner <==> ContainerOwner(m, |m.order|, c).Some?
    ensures forall c | c in owner :: ContainerOwner(m, |m.order|, c) == Some(owner[c])
  {
    owner := map[];
    for i := 0 to |m.order|
      invariant forall c :: c in owner <==> ContainerOwner(m, i, c).Some?
      invariant forall c | c in owner :: ContainerOwner(m, i, c) == Some(owner[c])
    {
      var declared := DeclaredContainer(m.services[m.order[i]]);
      if declared.Some? {
        owner := owner[declared.value := m.order[i]];
      }
    }
  }

  ghost predicate ConsumerTable(m: Model, names: seq<Name>, table: map<Name, seq<Name>>) {
    && (forall p | p in table :: Distinct(table[p]) && forall c | c in table[p] :: c in names && Provider(m, c) == Some(p))
    && (forall c | c in names && Provider(m, c).Some? :: Provider(m, c).value in table && c in table[Provider(m, c).value])
  }

  /** The provider a network mode names, "" for none. */
  method FindProvider(m: ComposeModel, owner: map<string, Name>, consumer: Name) returns (provider: Name)
    requires consumer in m.services
    requires forall c :: c in owner <==> ContainerOwner(m, |m.order|, c).Some?
    requires forall c | c in owner :: ContainerOwner(m, |m.order|, c) == Some(owner[c])
    ensures Provider(m, consumer) == NonEmpty(Some(provider))
  {
    var service := m.services[consumer];
    provider := "";
    if service.networkMode.Some? {
      var mode := service.networkMode.value;
      if "service:" <= mode {
        if mode[|"service:"|..] in m.services {
          provider := mode[|"service:"|..];
        }
      } else if "container:" <= mode {
        if mode[|"container:"|..] in owner {
          provider := owner[mode[|"container:"|..]];
        }
      }
    }
  }

  lemma AddToTable(m: Model, names: seq<Name>, table: map<Name, seq<Name>>, consumer: Name, table': map<Name, seq<Name>>)
    requires ConsumerTable(m, names, table) && consumer !in names
    requires table' == match Provider(m, consumer)
                       case None => table
                       case Some(p) => table[p := (if p in table then table[p] else []) + [consumer]]
    ensures ConsumerTable(m, names + [consumer], table')
  {
  }

  method IndexConsumers(m: ComposeModel) returns (table: map<Name, seq<Name>>)
    ensures ConsumerTable(m, m.order, table)
  {
    var owner := IndexContainers(m);
    table := map[];
    for i := 0 to |m.order|
      invariant ConsumerTable(m, m.order[..i], table)
    {
      var consumer := m.order[i];
      var provider := FindProvider(m, owner, consumer);
      ghost var before := table;
      if provider != "" {
        var consumers := if provider in table then table[provider] else [];
        table := table[provider := consumers + [consumer]];
      }
      assert m.order[..i + 1] == m.order[..i] + [consumer];
      AddToTable(m, m.order[..i], before, consumer, table);
    }
    assert m.order[..|m.order|] == m.order;
  }

  ghost predicate WithinClosure(m: Model, requested: seq<Name>, r: seq<Name>) {
    forall c | c in r :: c in m.services && InClosure(m, requested, c)
  }

  ghost predicate ClosedUnder(m: Model, r: seq<Name>, processed: seq<Name>) {
    forall c | Provider(m, c).Some? && Provider(m, c).value in processed :: c in r
  }

  /** What the outer loop has established when it is about to process `result[index]`. */
  ghost predicate Frontier(m: Model, requested: seq<Name>, result: seq<Name>, parent: seq<nat>, index: nat) {
    && Dedup(requested) <= result && index <= |result|
    && Distinct(result)
    && WithinClosure(m, requested, result)
    && BreadthFirst(m, |Dedup(requested)|, result, parent)
    && (forall i | |Dedup(requested)| <= i < |result| :: parent[i] < index)
    && ClosedUnder(m, result, result[..index])
  }

  lemma ConsumerInClosure(m: Model, requested: seq<Name>, c: Name, p: Name)
    requires Provider(m, c) == Some(p) && InClosure(m, requested, p)
    ensures InClosure(m, requested, c)
  {
    var r :| r in requested && Depends(m, p, r);
    DependsOnProvider(m, c, p);
    DependsTransitive(m, c, p, r);
  }

  /** `result` is `result0` plus those of the consumers in `done` that were new, in order. */
  ghost predicate Pushed(m: Model, result0: seq<Name>, result: seq<Name>, done: seq<Name>, provider: Name) {
    && result0 <= result
    && Distinct(result)
    && (forall i | |result0| <= i < |result| :: Provider(m, result[i]) == Some(provider) && result[i] in done)
    && (forall i, j | |result0| <= i < j < |result| :: LexLess(result[i], result[j]))
    && (forall c | c in done :: c in result)
  }

  lemma PushNew(m: Model, result0: seq<Name>, result: seq<Name>, done: seq<Name>, provider: Name, c: Name)
    requires Pushed(m, result0, result, done, provider) && Provider(m, c) == Some(provider) && c !in result
    requires forall d | d in done :: LexLess(d, c)
    ensures Pushed(m, result0, result + [c], done + [c], provider)
  {
    var next := result + [c];
    forall i, j | |result0| <= i < j < |next| ensures LexLess(next[i], next[j]) {
      assert result[i] in done;
    }
    forall d | d in done + [c] ensures d in next {
      assert d in result || d == c;
    }
  }

  lemma PushSeen(m: Model, result0: seq<Name>, result: seq<Name>, done: seq<Name>, provider: Name, c: Name)
    requires Pushed(m, result0, result, done, provider) && c in result
    ensures Pushed(m, result0, result, done + [c], provider)
  {
  }

  lemma PushNext(m: Model, result0: seq<Name>, result: seq<Name>, consumers: seq<Name>, k: nat, provider: Name)
    requires k < |consumers| && StrictlySorted(consumers) && Provider(m, consumers[k]) == Some(provider)
    requires Pushed(m, result0, result, consumers[..k], provider)
    ensures Pushed(m, result0, if consumers[k] in result then result else result + [consumers[k]], consumers[..k + 1], provider)
  {
    assert consumers[..k + 1] == consumers[..k] + [consumers[k]];
    if consumers[k] in result {
      PushSeen(m, result0, result, consumers[..k], provider, consumers[k]);
    } else {
      PushNew(m, result0, result, consumers[..k], provider, consumers[k]);
    }
  }

  lemma PushedWithinClosure(m: Model, requested: seq<Name>, result0: seq<Name>, provider: Name, result: seq<Name>, consumers: seq<Name>)
    requires WithinClosure(m, requested, result0) && Pushed(m, result0, result, consumers, provider)
    requires provider in result0
    ensures WithinClosure(m, requested, result)
  {
    forall c | c in result ensures c in m.services && InClosure(m, requested, c) {
      var i :| 0 <= i < |result| && result[i] == c;
      if i < |result0| {
        assert result0[i] in result0;
      } else {
        ConsumerInClosure(m, requested, c, provider);
      }
    }
  }

  lemma PushedCloses(m: Model, result0: seq<Name>, index: nat, result: seq<Name>, consumers: seq<Name>)
    requires index < |result0| && ClosedUnder(m, result0, result0[..index])
    requires Pushed(m, result0, result, consumers, result0[index])
    requires forall c | Provider(m, c) == Some(result0[index]) :: c in consumers
    ensures ClosedUnder(m, result, result[..index + 1])
  {
    assert result[..index + 1] == result0[..index] + [result0[index]];
    assert forall c | c in result0 :: c in result;
  }

  lemma PushedBreadthFirst(m: Model, start: nat, result0: seq<Name>, parent0: seq<nat>, index: nat, result: seq<Name>, consumers: seq<Name>)
    requires start <= |result0| && index < |result0| && BreadthFirst(m, start, result0, parent0)
    requires forall i | start <= i < |result0| :: parent0[i] < index
    requires Pushed(m, result0, result, consumers, result0[index])
    ensures BreadthFirst(m, start, result, parent0 + seq(|result| - |result0|, _ => index))
  {
    var parent := parent0 + seq(|result| - |result0|, _ => index);
    assert forall i | 0 <= i < |result| :: parent[i] == if i < |result0| then parent0[i] else index;
    assert forall i | 0 <= i < |result0| :: result[i] == result0[i];
  }

  lemma PushedExtendsFrontier(m: Model, requested: seq<Name>, result0: seq<Name>, parent0: seq<nat>, index: nat,
                              result: seq<Name>, consumers: seq<Name>)
    requires Frontier(m, requested, result0, parent0, index) && index < |result0|
    requires Pushed(m, result0, result, consumers, result0[index])
    requires forall c | Provider(m, c) == Some(result0[index]) :: c in consumers
    ensures Frontier(m, requested, result, parent0 + seq(|result| - |result0|, _ => index), index + 1)
  {
    PushedWithinClosure(m, requested, result0, result0[index], result, consumers);
    PushedCloses(m, result0, index, result, consumers);
    PushedBreadthFirst(m, |Dedup(requested)|, result0, parent0, index, result, consumers);
  }

  /** The inner loop: push every consumer of `result[index]` not seen before. */
  method AddConsumers(m: Model, result0: seq<Name>, visited0: set<Name>, ghost provider: Name, consumers: seq<Name>)
    returns (result: seq<Name>, visited: set<Name>)
    requires Distinct(result0) && visited0 == Elements(result0)
    requires StrictlySorted(consumers) && forall c | c in consumers :: Provider(m, c) == Some(provider)
    ensures visited == Elements(result)
    ensures Pushed(m, result0, result, consumers, provider)
  {
    result, visited := result0, visited0;
    for k := 0 to |consumers|
      invariant visited == Elements(result)
      invariant Pushed(m, result0, result, consumers[..k], provider)
    {
      var consumer := consumers[k];
      PushNext(m, result0, result, consumers, k, provider);
      if consumer !in visited {
        visited := visited + {consumer};
        result := result + [consumer];
      }
    }
    assert consumers[..|consumers|] == consumers;
  }

  lemma StartFrontier(m: Model, requested: seq<Name>)
    requires forall s | s in requested :: s in m.services
    ensures Frontier(m, requested, Dedup(requested), seq(|Dedup(requested)|, _ => 0), 0)
  {
    forall c | c in Dedup(requested) ensures InClosure(m, requested, c) {
      DependsSelf(m, c);
    }
  }

  lemma FinishedFrontier(m: Model, requested: seq<Name>, result: seq<Name>, parent: seq<nat>)
    requires Frontier(m, requested, result, parent, |result|)
    ensures IsTargetList(m, requested, result)
  {
    assert result[..|result|] == result;
    forall r | r in requested ensures r in result {
      assert r in Dedup(requested);
      var i :| 0 <= i < |Dedup(requested)| && Dedup(requested)[i] == r;
      assert result[i] == r;
    }
    forall c | InClosure(m, requested, c) ensures c in result {
      ClosureIsLeast(m, requested, Elements(result), c);
    }
    assert TargetListVia(m, requested, result, parent);
  }

  lemma FrontierIsBounded(m: Model, requested: seq<Name>, result: seq<Name>, parent: seq<nat>, index: nat)
    requires Frontier(m, requested, result, parent, index)
    ensures |result| <= |m.services|
  {
    DistinctWithin(result, m.services.Keys);
  }

  /** One round of the worklist: push the consumers of `result0[index]`. */
  method PushConsumers(m: Model, ghost requested: seq<Name>, result0: seq<Name>, visited0: set<Name>, ghost parent0: seq<nat>,
                       index: nat, consumersByProvider: map<Name, seq<Name>>)
    returns (result: seq<Name>, visited: set<Name>, ghost parent: seq<nat>)
    requires Frontier(m, requested, result0, parent0, index) && index < |result0| && visited0 == Elements(result0)
    requires ConsumerTable(m, m.order, consumersByProvider) && forall n | n in m.services :: n in m.order
    ensures Frontier(m, requested, result, parent, index + 1) && visited == Elements(result)
  {
    var provider := result0[index];
    var consumers := Sort(if provider in consumersByProvider then consumersByProvider[provider] else []);
    result, visited := AddConsumers(m, result0, visited0, provider, consumers);
    PushedExtendsFrontier(m, requested, result0, parent0, index, result, consumers);
    parent := parent0 + seq(|result| - |result0|, _ => index);
  }

  /** The worklist loop of lines 99-111. */
  method CloseOverConsumers(m: Model, requestedServices: seq<Name>, consumersByProvider: map<Name, seq<Name>>)
    returns (result: seq<Name>)
    requires forall s | s in requestedServices :: s in m.services
    requires ConsumerTable(m, m.order, consumersByProvider) && forall n | n in m.services :: n in m.order
    ensures IsTargetList(m, requestedServices, result)
  {
    result := Dedup(requestedServices);
    ghost var parent: seq<nat> := seq(|result|, _ => 0);
    var visited := Elements(result);
    var index := 0;
    StartFrontier(m, requestedServices);
    while index < |result|
      invariant Frontier(m, requestedServices, result, parent, index)
      invariant visited == Elements(result)
      decreases |m.services| - index
    {
      FrontierIsBounded(m, requestedServices, result, parent, index);
      result, visited, parent := PushConsumers(m, requestedServices, result, visited, parent, index, consumersByProvider);
      index := index + 1;
    }
    FinishedFrontier(m, requestedServices, result, parent);
  }

  /** `name` is the first requested service that the model does not have. */
  ghost predicate FirstMissing(m: Model, requested: seq<Name>, name: Name) {
    exists i :: 0 <= i < |requested| && requested[i] == name && name !in m.services
                && forall j | 0 <= j < i :: requested[j] in m.services
  }

  lemma FirstMissingDedup(m: Model, requested: seq<Name>, i: nat)
    requires i < |Dedup(requested)| && Dedup(requested)[i] !in m.services
    requires forall j | 0 <= j < i :: Dedup(requested)[j] in m.services
    ensures FirstMissing(m, requested, Dedup(requested)[i])
  {
    var k := DedupOrder(requested, i);
    forall j | 0 <= j < k ensures requested[j] in m.services {
      assert requested[j] in Dedup(requested)[..i];
    }
  }

  /** The least consumer closure of the request, breadth first, or the first unknown service. */
  method ResolveTargets(m: ComposeModel, requestedServices: seq<Name>) returns (r: Result<seq<Name>, ResolveError>)
    ensures r.Ok? <==> forall s | s in requestedServices :: s in m.services
    ensures r.Ok? ==> IsTargetList(m, requestedServices, r.value)
    ensures r.Err? ==> FirstMissing(m, requestedServices, r.error.name)
  {
    var requested := Dedup(requestedServices);
    if requested == [] {
      assert TargetListVia(m, requestedServices, [], []);
      return Ok([]);
    }
    for i := 0 to |requested|
      invariant forall j | 0 <= j < i :: requested[j] in m.services
    {
      if requested[i] !in m.services {
        FirstMissingDedup(m, requestedServices, i);
        return Err(MissingService(requested[i]));
      }
    }
    assert forall s | s in requestedServices :: s in requested && s in m.services;
    var consumersByProvider := IndexConsumers(m);
    var result := CloseOverConsumers(m, requestedServices, consumersByProvider);
    return Ok(result);
  }
}
