/** Which service a network mode names, said over the fields of the model
    (backend/compose-network-namespace.ts, lines 69-97, 102). */
module NetworkNamespaceMeaning {
  import opened Common
  import opened NetworkNamespace

  // ---------------------------------------------------------------- strings

  predicate AllSpace(s: string) {
    forall c | c in s :: IsSpace(c)
  }

  lemma SpaceBefore(c: char, x: string, rest: string)
    requires IsSpace(c) && AllSpace(x)
    ensures [c] + (x + rest) == ([c] + x) + rest && AllSpace([c] + x)
  {
  }

  lemma SpaceBehind(c: char, y: string, rest: string)
    requires IsSpace(c) && AllSpace(y)
    ensures (rest + y) + [c] == rest + (y + [c]) && AllSpace(y + [c])
  {
  }

  lemma {:induction false} TrimStartMeans(s: string) returns (x: string)
    ensures s == x + TrimStart(s) && AllSpace(x)
    ensures TrimStart(s) != [] ==> !IsSpace(TrimStart(s)[0])
  {
    if s != [] && IsSpace(s[0]) {
      var rest := TrimStartMeans(s[1..]);
      SpaceBefore(s[0], rest, TrimStart(s[1..]));
      x := [s[0]] + rest;
    } else {
      x := [];
    }
  }

  lemma {:induction false} TrimEndMeans(s: string) returns (y: string)
    ensures s == TrimEnd(s) + y && AllSpace(y)
  {
    if s != [] && IsSpace(s[|s| - 1]) {
      var front, last := s[..|s| - 1], s[|s| - 1];
      var rest := TrimEndMeans(front);
      assert TrimEnd(s) == TrimEnd(front);
      y := rest + [last];
      SpaceBehind(last, rest, TrimEnd(front));
      assert s == front + [last];
    } else {
      y := [];
    }
  }

  lemma {:induction false} TrimEndEnds(s: string)
    ensures TrimEnd(s) != [] ==> !IsSpace(TrimEnd(s)[|TrimEnd(s)| - 1])
  {
    if s != [] && IsSpace(s[|s| - 1]) {
      var front := s[..|s| - 1];
      TrimEndEnds(front);
      assert TrimEnd(s) == TrimEnd(front);
    }
  }

  /** `t` is `s` without the space at both ends. */
  ghost predicate IsTrimmed(s: string, t: string) {
    && (exists x, y :: s == x + t + y && AllSpace(x) && AllSpace(y))
    && (t != [] ==> !IsSpace(t[0]) && !IsSpace(t[|t| - 1]))
  }

  lemma BothEnds(s: string, x: string, rest: string, t: string, y: string)
    requires s == x + rest && rest == t + y && AllSpace(x) && AllSpace(y)
    requires rest != [] ==> !IsSpace(rest[0])
    requires t != [] ==> !IsSpace(t[|t| - 1])
    ensures IsTrimmed(s, t)
  {
    assert s == x + t + y;
    if t != [] {
      assert t[0] == rest[0];
    }
  }

  /** Only space is removed, and none is left at either end. */
  lemma TrimMeans(s: string)
    ensures IsTrimmed(s, Trim(s))
  {
    var x := TrimStartMeans(s);
    var y := TrimEndMeans(TrimStart(s));
    TrimEndEnds(TrimStart(s));
    BothEnds(s, x, TrimStart(s), Trim(s), y);
  }

  lemma SpaceAtFront(x: string, t: string, y: string, k: nat)
    requires AllSpace(x) && k < |x|
    ensures IsSpace((x + t + y)[k])
  {
    assert (x + t + y)[k] == x[k];
  }

  lemma SpaceAtBack(x: string, t: string, y: string, k: nat)
    requires AllSpace(y) && |x + t| <= k < |x + t + y|
    ensures IsSpace((x + t + y)[k])
  {
    assert (x + t + y)[k] == y[k - |x + t|];
  }

  /** Whatever is left begins and ends inside anything else that can be left. */
  lemma TrimmedInside(x: string, t: string, y: string, v: string, u: string, w: string)
    requires x + t + y == v + u + w && AllSpace(v) && AllSpace(w)
    requires t != [] && !IsSpace(t[0]) && !IsSpace(t[|t| - 1])
    ensures |v| <= |x| && |x| + |t| <= |v| + |u|
  {
    var s := x + t + y;
    var first: nat, last: nat := |x|, |x| + |t| - 1;
    assert s[first] == t[0] && s[last] == t[|t| - 1];
    if first < |v| {
      SpaceAtFront(v, u, w, first);
    }
    if |v + u| <= last {
      SpaceAtBack(v, u, w, last);
    }
  }

  /** There is only one way to trim. */
  lemma TrimmedOnce(s: string, t: string, u: string)
    requires IsTrimmed(s, t) && IsTrimmed(s, u)
    ensures t == u
  {
    var x, y :| s == x + t + y && AllSpace(x) && AllSpace(y);
    var v, w :| s == v + u + w && AllSpace(v) && AllSpace(w);
    if t != [] {
      TrimmedInside(x, t, y, v, u, w);
    }
    if u != [] {
      TrimmedInside(v, u, w, x, t, y);
    }
    if t != [] && u != [] {
      assert t == s[|x|..|x| + |t|] && u == s[|v|..|v| + |u|];
    }
  }

  /** The names agree on the first `k` characters; there the first one ends or has the smaller character. */
  predicate SmallerAt(a: string, b: string, k: nat) {
    k <= |a| && k < |b| && a[..k] == b[..k] && (k == |a| || a[k] < b[k])
  }

  lemma AgreeAtHead(a: string, b: string, k: nat)
    requires SmallerAt(a, b, k) && k > 0
    ensures a != [] && a[0] == b[0]
  {
    assert a[..k][0] == b[..k][0];
  }

  /** A name sorts before another one when it is a proper prefix or smaller at the first difference. */
  lemma {:induction false} LexLessMeans(a: string, b: string)
    ensures LexLess(a, b) <==> exists k: nat :: SmallerAt(a, b, k)
  {
    if a == [] || b == [] || a[0] != b[0] {
      if LexLess(a, b) {
        assert SmallerAt(a, b, 0);
      }
      forall k: nat | SmallerAt(a, b, k) ensures LexLess(a, b) {
        if k > 0 {
          AgreeAtHead(a, b, k);
        }
      }
    } else {
      LexLessMeans(a[1..], b[1..]);
      if LexLess(a, b) {
        var k: nat :| SmallerAt(a[1..], b[1..], k);
        assert a[..k + 1] == [a[0]] + a[1..][..k] && b[..k + 1] == [b[0]] + b[1..][..k];
        assert SmallerAt(a, b, k + 1);
      }
      forall k: nat | SmallerAt(a, b, k) ensures LexLess(a, b) {
        assert k > 0 && a[1..][..k - 1] == a[..k][1..] && b[1..][..k - 1] == b[..k][1..];
        assert SmallerAt(a[1..], b[1..], k - 1);
      }
    }
  }

  // ------------------------------------------------------------- container names

  /** The service declares the container name, apart from space around it. */
  predicate Declares(m: Model, n: Name, container: string) {
    n in m.services && DeclaredContainer(m.services[n]) == Some(container)
  }

  lemma DeclaresMeans(m: Model, n: Name, container: string)
    requires n in m.services
    ensures Declares(m, n, container) <==>
              && m.services[n].containerName.Some?
              && container != "" && IsTrimmed(m.services[n].containerName.value, container)
  {
    if m.services[n].containerName.Some? {
      var name := m.services[n].containerName.value;
      TrimMeans(name);
      if IsTrimmed(name, container) {
        TrimmedOnce(name, container, Trim(name));
      }
    }
  }

  /** The service at `i` is the last of the first `n` services to declare the name. */
  ghost predicate LastDeclares(m: Model, n: nat, container: string, i: nat)
    requires n <= |m.order|
  {
    i < n && Declares(m, m.order[i], container) && forall j | i < j < n :: !Declares(m, m.order[j], container)
  }

  lemma {:induction false} OwnerDeclaresLast(m: Model, n: nat, container: string) returns (i: nat)
    requires n <= |m.order| && ContainerOwner(m, n, container).Some?
    ensures LastDeclares(m, n, container, i)
  {
    i := n - 1;
    if !Declares(m, m.order[i], container) {
      i := OwnerDeclaresLast(m, n - 1, container);
    }
  }

  lemma {:induction false} LastDeclaresOwns(m: Model, n: nat, container: string, i: nat)
    requires n <= |m.order| && LastDeclares(m, n, container, i)
    ensures ContainerOwner(m, n, container) == Some(m.order[i])
  {
    if i < n - 1 {
      assert !Declares(m, m.order[n - 1], container);
      LastDeclaresOwns(m, n - 1, container, i);
    }
  }

  /** A container name belongs to the last service that declares it. */
  lemma ContainerOwnerMeans(m: ComposeModel, container: string, i: nat)
    requires i < |m.order|
    ensures ContainerOwner(m, |m.order|, container) == Some(m.order[i]) <==> LastDeclares(m, |m.order|, container, i)
  {
    if ContainerOwner(m, |m.order|, container) == Some(m.order[i]) {
      var k := OwnerDeclaresLast(m, |m.order|, container);
      LastDeclaresOwns(m, |m.order|, container, k);
      assert m.order[k] == m.order[i];
    }
    if LastDeclares(m, |m.order|, container, i) {
      LastDeclaresOwns(m, |m.order|, container, i);
    }
  }

  // ----------------------------------------------------------------- network modes

  predicate HasMode(m: Model, c: Name, mode: string) {
    c in m.services && m.services[c].networkMode == Some(mode)
  }

  /** `service:p` names the service `p`, if there is one. */
  lemma ServiceModeMeans(m: Model, c: Name, p: Name)
    requires HasMode(m, c, "service:" + p)
    ensures Provider(m, c) == if p != "" && p in m.services then Some(p) else None
  {
    var mode := "service:" + p;
    assert mode[..|"service:"|] == "service:" && mode[|"service:"|..] == p;
  }

  /** `container:t` names the last service that declares the container name `t`, if there is one. */
  lemma ContainerModeMeans(m: ComposeModel, c: Name, t: string, i: nat)
    requires HasMode(m, c, "container:" + t) && i < |m.order| && m.order[i] != ""
    ensures Provider(m, c) == Some(m.order[i]) <==> LastDeclares(m, |m.order|, t, i)
  {
    var mode := "container:" + t;
    assert mode[..|"container:"|] == "container:" && mode[|"container:"|..] == t;
    assert !("service:" <= mode) by {
      assert mode[0] == 'c' && "service:"[0] == 's';
    }
    ContainerOwnerMeans(m, t, i);
  }

  /** Only a service of the model is ever named, and only by these two kinds of mode. */
  lemma OtherModesNameNone(m: Model, c: Name)
    requires Provider(m, c).Some?
    ensures c in m.services && m.services[c].networkMode.Some?
    ensures Provider(m, c).value in m.services && Provider(m, c).value != ""
    ensures var mode := m.services[c].networkMode.value; "service:" <= mode || "container:" <= mode
  {
  }

  /** The network mode of `c` names the service `p` or the container it declares. */
  ghost predicate Joins(m: Model, c: Name, p: Name) {
    || (HasMode(m, c, "service:" + p) && p in m.services)
    || (exists t, i: nat :: HasMode(m, c, "container:" + t) && LastDeclares(m, |m.order|, t, i) && m.order[i] == p)
  }

  lemma JoinsContainerOwner(m: ComposeModel, c: Name, p: Name, t: string)
    requires Provider(m, c) == Some(p) && HasMode(m, c, "container:" + t)
    ensures Joins(m, c, p)
  {
    OtherModesNameNone(m, c);
    var i: nat :| i < |m.order| && m.order[i] == p;
    ContainerModeMeans(m, c, t, i);
    assert LastDeclares(m, |m.order|, t, i);
  }

  /** The provider of a service is the non-empty service whose namespace it joins. */
  lemma ProviderMeans(m: ComposeModel, c: Name, p: Name)
    ensures Provider(m, c) == Some(p) <==> p != "" && Joins(m, c, p)
  {
    if Provider(m, c) == Some(p) {
      OtherModesNameNone(m, c);
      var mode := m.services[c].networkMode.value;
      if "service:" <= mode {
        assert mode == "service:" + mode[|"service:"|..];
        ServiceModeMeans(m, c, mode[|"service:"|..]);
      } else {
        assert mode == "container:" + mode[|"container:"|..];
        JoinsContainerOwner(m, c, p, mode[|"container:"|..]);
      }
    }
    if p != "" && HasMode(m, c, "service:" + p) && p in m.services {
      ServiceModeMeans(m, c, p);
    }
    if t, i: nat :| p != "" && HasMode(m, c, "container:" + t) && LastDeclares(m, |m.order|, t, i) && m.order[i] == p {
      ContainerModeMeans(m, c, t, i);
    }
  }

  /** Whoever joins the namespace of a target is a target too. */
  lemma TargetsIncludeWhoJoins(m: ComposeModel, requested: seq<Name>, c: Name, p: Name)
    requires InClosure(m, requested, p) && p != "" && Joins(m, c, p)
    ensures InClosure(m, requested, c)
  {
    ProviderMeans(m, c, p);
    DependsOnProvider(m, c, p);
    var r :| r in requested && Depends(m, p, r);
    DependsTransitive(m, c, p, r);
  }
}
