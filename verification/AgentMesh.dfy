/** Synchronization of the agent catalogues of all instances of a mesh
    (backend/agent-mesh.ts, lines 55-136 and 180-219; receivers apply a catalogue as in
    backend/socket-handlers/manage-agent-socket-handler.ts, lines 116-127). */
module AgentMesh {
  import opened Common

  /** The host part of a URL. */
  type Endpoint = string

  datatype Credentials = Credentials(username: string, password: string)

  /** A parsed URL without its host. */
  datatype Url = Url(protocol: string, text: string)

  datatype Peer = Peer(endpoint: Endpoint, url: Url, credentials: Credentials, displayName: string)

  /** A stored agent; a reverse agent has a `reverse://` URL and no outgoing connection. */
  datatype Agent = Agent(reverse: bool, url: Url, credentials: Credentials, displayName: string, suppressAlerts: bool)

  type Catalogue = map<Endpoint, Agent>

  const TOKEN_USERNAME := "__dockge_federation_token__"

  ghost predicate DistinctEndpoints(peers: seq<Peer>) {
    forall i, j | 0 <= i < j < |peers| :: peers[i].endpoint != peers[j].endpoint
  }

  function Endpoints(peers: seq<Peer>): (r: set<Endpoint>)
    ensures forall e :: e in r <==> exists p :: p in peers && p.endpoint == e
  {
    set p | p in peers :: p.endpoint
  }

  // ------------------------------------------------------------- one catalogue

  /** The row for `peer`; a new row starts without alert suppression. */
  function Stored(prior: Catalogue, peer: Peer): Agent {
    Agent(false, peer.url, peer.credentials, peer.displayName,
          peer.endpoint in prior && prior[peer.endpoint].suppressAlerts)
  }

  /** `now` is `old` after installing `peers` on the instance called `own`. */
  ghost predicate Installed(prior: Catalogue, peers: seq<Peer>, own: Endpoint, now: Catalogue) {
    && (forall p | p in peers && p.endpoint != own :: p.endpoint in now && now[p.endpoint] == Stored(prior, p))
    && (forall e | e in now :: (exists p :: p in peers && p.endpoint == e && e != own) || (e in prior && prior[e].reverse && now[e] == prior[e]))
    && (forall e | e in prior && prior[e].reverse :: e in now)
  }

  /** The non-reverse part of a catalogue. */
  function Direct(c: Catalogue): Catalogue {
    map e | e in c && !c[e].reverse :: c[e]
  }

  class AgentTable {
    var rows: Catalogue

    constructor (rows: Catalogue)
      ensures this.rows == rows
    {
      this.rows := rows;
    }

    method StorePeers(peers: seq<Peer>, ownEndpoint: Endpoint)
      requires DistinctEndpoints(peers)
      modifies this
      ensures forall p | p in peers && p.endpoint != ownEndpoint :: p.endpoint in rows && rows[p.endpoint] == Stored(old(rows), p)
      ensures forall e | e !in Endpoints(peers) || e == ownEndpoint :: (e in rows <==> e in old(rows)) && (e in rows ==> rows[e] == old(rows)[e])
      ensures old(rows).Keys <= rows.Keys <= old(rows).Keys + Endpoints(peers)
    {
      for i := 0 to |peers|
        invariant forall k | 0 <= k < i && peers[k].endpoint != ownEndpoint ::
          peers[k].endpoint in rows && rows[peers[k].endpoint] == Stored(old(rows), peers[k])
        invariant forall e | e == ownEndpoint || forall k | 0 <= k < i :: peers[k].endpoint != e ::
          (e in rows <==> e in old(rows)) && (e in rows ==> rows[e] == old(rows)[e])
        invariant old(rows).Keys <= rows.Keys <= old(rows).Keys + Endpoints(peers)
      {
        var peer := peers[i];
        assert peer in peers;
        if peer.endpoint != ownEndpoint {
          var suppress := peer.endpoint in rows && rows[peer.endpoint].suppressAlerts;
          rows := rows[peer.endpoint := Agent(false, peer.url, peer.credentials, peer.displayName, suppress)];
        }
      }
    }

    /** `upsertMeshPeers`: store every peer, then drop direct agents that are not wanted. */
    method UpsertMeshPeers(peers: seq<Peer>, ownEndpoint: Endpoint)
      requires DistinctEndpoints(peers)
      modifies this
      ensures Installed(old(rows), peers, ownEndpoint, rows)
    {
      var existing := rows.Keys;
      var desired := Endpoints(peers) - {ownEndpoint};
      StorePeers(peers, ownEndpoint);
      ghost var stored := rows;
      var todo := existing;
      while todo != {}
        invariant todo <= existing
        invariant forall e :: e in rows <==> e in stored && !(e in existing - todo && !stored[e].reverse && e !in desired)
        invariant forall e | e in rows :: rows[e] == stored[e]
        decreases todo
      {
        var e :| e in todo;
        todo := todo - {e};
        if !rows[e].reverse && e !in desired {
          rows := rows - {e};
        }
      }
    }
  }

  lemma InstalledWithin(prior: Catalogue, peers: seq<Peer>, own: Endpoint, a: Catalogue, b: Catalogue, e: Endpoint)
    requires Installed(prior, peers, own, a) && Installed(prior, peers, own, b) && e in a
    ensures e in b && a[e] == b[e]
  {
    if p :| p in peers && p.endpoint == e && e != own {
      assert a[e] == Stored(prior, p) == b[e];
    } else {
      assert e in prior && prior[e].reverse;
    }
  }

  /** Installing determines the whole catalogue. */
  lemma InstalledUnique(prior: Catalogue, peers: seq<Peer>, own: Endpoint, a: Catalogue, b: Catalogue)
    requires Installed(prior, peers, own, a) && Installed(prior, peers, own, b)
    ensures a == b
  {
    forall e | e in a ensures e in b && a[e] == b[e] { InstalledWithin(prior, peers, own, a, b, e); }
    forall e | e in b ensures e in a { InstalledWithin(prior, peers, own, b, a, e); }
    assert a.Keys == b.Keys;
  }

  /** The direct agents become exactly the peers other than the instance itself, and every reverse
      agent whose endpoint is not one of those peers survives unchanged. */
  lemma InstalledMeansPeers(prior: Catalogue, peers: seq<Peer>, own: Endpoint, now: Catalogue)
    requires Installed(prior, peers, own, now)
    ensures Direct(now).Keys == Endpoints(peers) - {own}
    ensures forall e | e in prior && prior[e].reverse && e !in Endpoints(peers) - {own} :: e in now && now[e] == prior[e]
    ensures forall e | e in now && now[e].reverse :: e in prior && now[e] == prior[e] && e !in Endpoints(peers) - {own}
  {
    forall e ensures e in Direct(now) <==> e in Endpoints(peers) - {own} {
      if e in Endpoints(peers) - {own} {
        var p :| p in peers && p.endpoint == e;
        assert now[e] == Stored(prior, p);
      }
    }
  }

  /** Installing the same peers again changes nothing. */
  lemma InstallIdempotent(prior: Catalogue, peers: seq<Peer>, own: Endpoint, now: Catalogue, again: Catalogue)
    requires Installed(prior, peers, own, now) && Installed(now, peers, own, again)
    ensures again == now
  {
    assert Installed(now, peers, own, now) by {
      forall p | p in peers && p.endpoint != own ensures now[p.endpoint] == Stored(now, p) {
        assert now[p.endpoint] == Stored(prior, p);
      }
      forall e | e in now ensures (exists p :: p in peers && p.endpoint == e && e != own) || now[e].reverse {
      }
    }
    InstalledUnique(now, peers, own, now, again);
  }

  // ------------------------------------------------------------------ the mesh

  datatype MeshError =
    | NoPeers
    | InvalidPeer(endpoint: Endpoint)
    | DuplicateEndpoint(endpoint: Endpoint)
    | NoRemoteAgent
    | TokenRefused
    | ValidationFailed
    | ApplyFailed(endpoint: Endpoint)

  /** How a remote instance answers a catalogue: the answer can get lost after it was applied. */
  datatype ApplyOutcome = Applied | NotApplied | AppliedButLost

  /** The behaviour of the remote instances during one synchronization. */
  datatype Remotes = Remotes(token: Endpoint -> string, validates: Endpoint -> bool, applies: Endpoint -> ApplyOutcome)

  predicate ValidPeer(p: Peer) {
    && p.url.protocol in {"http:", "https:"} && p.endpoint != ""
    && p.credentials.username != "" && p.credentials.password != "" && |p.displayName| <= 100
  }

  /** Why a list of peers is refused: it is empty, holds an invalid peer (the first one is named), or
      repeats an endpoint. */
  ghost predicate Refusal(peers: seq<Peer>, error: MeshError) {
    match error
    case NoPeers => peers == []
    case InvalidPeer(e) =>
      exists i :: 0 <= i < |peers| && peers[i].endpoint == e && !ValidPeer(peers[i]) && forall j | 0 <= j < i :: ValidPeer(peers[j])
    case DuplicateEndpoint(e) =>
      && (forall p | p in peers :: ValidPeer(p))
      && exists i, j :: 0 <= i < j < |peers| && peers[i].endpoint == e == peers[j].endpoint && DistinctEndpoints(peers[..j])
    case _ => false
  }

  /** `validateMeshPeers` */
  method ValidateMeshPeers(peers: seq<Peer>) returns (error: Option<MeshError>)
    ensures error.None? <==> peers != [] && (forall p | p in peers :: ValidPeer(p)) && DistinctEndpoints(peers)
    ensures error.Some? ==> Refusal(peers, error.value)
  {
    if |peers| < 1 {
      return Some(NoPeers);
    }
    for i := 0 to |peers|
      invariant forall k | 0 <= k < i :: ValidPeer(peers[k])
    {
      if !ValidPeer(peers[i]) {
        assert peers[i] in peers;
        return Some(InvalidPeer(peers[i].endpoint));
      }
    }
    var endpoints: set<Endpoint> := {};
    for i := 0 to |peers|
      invariant forall e :: e in endpoints <==> exists k :: 0 <= k < i && peers[k].endpoint == e
      invariant DistinctEndpoints(peers[..i])
    {
      if peers[i].endpoint in endpoints {
        ghost var k :| 0 <= k < i && peers[k].endpoint == peers[i].endpoint;
        return Some(DuplicateEndpoint(peers[i].endpoint));
      }
      endpoints := endpoints + {peers[i].endpoint};
    }
    assert peers[..|peers|] == peers;
    return None;
  }

  function AsPeer(endpoint: Endpoint, agent: Agent): Peer {
    Peer(endpoint, agent.url, agent.credentials, agent.displayName)
  }

  /** `self` followed by the stored direct agents in storage order. */
  function MeshPeers(self: Peer, rows: Catalogue, order: seq<Endpoint>): (r: seq<Peer>)
    ensures |r| >= 1 && r[0] == self
    ensures forall p | p in r[1..] :: p.endpoint in rows && !rows[p.endpoint].reverse && p.endpoint in order
    ensures forall e | e in order && e in rows && !rows[e].reverse :: exists p :: p in r && p.endpoint == e
  {
    if order == [] then [self]
    else
      var front, e := MeshPeers(self, rows, order[..|order| - 1]), order[|order| - 1];
      if e in rows && !rows[e].reverse then
        var r := front + [AsPeer(e, rows[e])];
        assert AsPeer(e, rows[e]) in r && forall p | p in front :: p in r;
        assert r[1..] == front[1..] + [AsPeer(e, rows[e])];
        r
      else front
  }

  /** A peer once its credentials have been exchanged for a federation token. */
  function Exchanged(peer: Peer, self: Endpoint, remotes: Remotes): Peer {
    if peer.endpoint == self then peer
    else peer.(credentials := Credentials(TOKEN_USERNAME, remotes.token(peer.endpoint)))
  }

  function ExchangeAll(peers: seq<Peer>, self: Endpoint, remotes: Remotes): (r: seq<Peer>)
    ensures |r| == |peers| && forall i | 0 <= i < |peers| :: r[i] == Exchanged(peers[i], self, remotes)
  {
    seq(|peers|, i requires 0 <= i < |peers| => Exchanged(peers[i], self, remotes))
  }

  /** `peers.filter(peer => meshEndpoint(peer) !== endpoint)` */
  function Without(peers: seq<Peer>, endpoint: Endpoint): (r: seq<Peer>)
    ensures forall p :: p in r <==> p in peers && p.endpoint != endpoint
    ensures DistinctEndpoints(peers) ==> DistinctEndpoints(r)
  {
    if peers == [] then []
    else
      var front, last := Without(peers[..|peers| - 1], endpoint), peers[|peers| - 1];
      assert peers == peers[..|peers| - 1] + [last];
      if last.endpoint == endpoint then front else front + [last]
  }

  /** The catalogue sent to `target`: nothing for the removed instance, the others' peers otherwise. */
  function CatalogueFor(desired: seq<Peer>, target: Endpoint, removed: Option<Endpoint>): seq<Peer> {
    if removed == Some(target) then [] else Without(desired, target)
  }

  function Desired(peers: seq<Peer>, removed: Option<Endpoint>): seq<Peer> {
    if removed.Some? then Without(peers, removed.value) else peers
  }

  function RowsOf(catalogues: map<Endpoint, Catalogue>, e: Endpoint): Catalogue {
    if e in catalogues then catalogues[e] else map[]
  }

  /** Each target among the first `k` has been given its catalogue, everything else is untouched. */
  ghost predicate AppliedTo(before: map<Endpoint, Catalogue>, after: map<Endpoint, Catalogue>, peers: seq<Peer>, k: nat,
                            removed: Option<Endpoint>)
    requires k <= |peers|
  {
    && (forall i | 0 <= i < k ::
          Installed(RowsOf(before, peers[i].endpoint), CatalogueFor(Desired(peers, removed), peers[i].endpoint, removed),
                    peers[i].endpoint, RowsOf(after, peers[i].endpoint)))
    && (forall e | e !in Endpoints(peers[..k]) :: RowsOf(after, e) == RowsOf(before, e))
  }

  /** Every remote instance among the peers applies its catalogue and says so. */
  ghost predicate AllAnswer(peers: seq<Peer>, self: Endpoint, remotes: Remotes) {
    forall p | p in peers && p.endpoint != self :: remotes.applies(p.endpoint) == Applied
  }

  /** The peer at `i` is the first remote one from which no success is heard. */
  ghost predicate FailsFirst(peers: seq<Peer>, self: Endpoint, remotes: Remotes, i: nat) {
    && i < |peers| && AllAnswer(peers[..i], self, remotes)
    && peers[i].endpoint != self && remotes.applies(peers[i].endpoint) != Applied
  }

  /** That instance is named; it has its catalogue only if the answer got lost. */
  ghost predicate FailedAt(peers: seq<Peer>, self: Endpoint, remotes: Remotes, error: MeshError, k: nat, i: nat) {
    && FailsFirst(peers, self, remotes, i) && error == ApplyFailed(peers[i].endpoint)
    && k == if remotes.applies(peers[i].endpoint) == NotApplied then i else i + 1
  }

  ghost predicate Failed(peers: seq<Peer>, self: Endpoint, remotes: Remotes, error: MeshError, k: nat) {
    exists i: nat :: FailedAt(peers, self, remotes, error, k, i)
  }

  lemma AnswersGoOn(peers: seq<Peer>, self: Endpoint, remotes: Remotes, i: nat)
    requires i < |peers| && AllAnswer(peers[..i], self, remotes)
    requires peers[i].endpoint == self || remotes.applies(peers[i].endpoint) == Applied
    ensures AllAnswer(peers[..i + 1], self, remotes)
  {
    assert peers[..i + 1] == peers[..i] + [peers[i]];
  }

  lemma OneFails(peers: seq<Peer>, self: Endpoint, remotes: Remotes, i: nat)
    requires FailsFirst(peers, self, remotes, i)
    ensures !AllAnswer(peers, self, remotes)
  {
    assert peers[i] in peers;
  }

  /** The catalogues handed out before the failure stay, the others are not touched. */
  ghost predicate StoppedAt(before: map<Endpoint, Catalogue>, after: map<Endpoint, Catalogue>, peers: seq<Peer>, self: Endpoint,
                            removed: Option<Endpoint>, remotes: Remotes, error: MeshError, k: nat) {
    k <= |peers| && AppliedTo(before, after, peers, k, removed) && Failed(peers, self, remotes, error, k)
  }

  /** What is checked before the first catalogue changes. */
  ghost predicate Ready(current: seq<Peer>, self: Endpoint, remotes: Remotes) {
    && |current| >= 2 && (forall p | p in current :: ValidPeer(p)) && DistinctEndpoints(current)
    && (forall p | p in current && p.endpoint != self :: remotes.token(p.endpoint) != "")
    && (forall p | p in ExchangeAll(current, self, remotes) && p.endpoint != self :: remotes.validates(p.endpoint))
  }

  class Mesh {
    /** The catalogue of every instance, by endpoint. */
    var catalogues: map<Endpoint, Catalogue>

    constructor (catalogues: map<Endpoint, Catalogue>)
      ensures this.catalogues == catalogues
    {
      this.catalogues := catalogues;
    }

    method Install(target: Endpoint, peers: seq<Peer>)
      requires DistinctEndpoints(peers)
      modifies this
      ensures Installed(RowsOf(old(catalogues), target), peers, target, RowsOf(catalogues, target))
      ensures forall e | e != target :: RowsOf(catalogues, e) == RowsOf(old(catalogues), e)
    {
      var table := new AgentTable(RowsOf(catalogues, target));
      table.UpsertMeshPeers(peers, target);
      catalogues := catalogues[target := table.rows];
    }

    /** The loop that hands out the catalogues, this instance applying its own directly. */
    method ApplyAll(peers: seq<Peer>, self: Endpoint, removed: Option<Endpoint>, remotes: Remotes)
      returns (error: Option<MeshError>, ghost k: nat)
      requires DistinctEndpoints(peers)
      modifies this
      ensures k <= |peers| && AppliedTo(old(catalogues), catalogues, peers, k, removed)
      ensures error.None? <==> AllAnswer(peers, self, remotes)
      ensures error.None? ==> k == |peers|
      ensures error.Some? ==> Failed(peers, self, remotes, error.value, k)
    {
      var desired := Desired(peers, removed);
      k := 0;
      for i := 0 to |peers|
        invariant k == i && AppliedTo(old(catalogues), catalogues, peers, i, removed)
        invariant AllAnswer(peers[..i], self, remotes)
      {
        var target := peers[i].endpoint;
        var catalogue := CatalogueFor(desired, target, removed);
        var outcome := if target == self then Applied else remotes.applies(target);
        if outcome == NotApplied {
          OneFails(peers, self, remotes, i);
          assert FailedAt(peers, self, remotes, ApplyFailed(target), i, i);
          return Some(ApplyFailed(target)), k;
        }
        ghost var current := catalogues;
        CatalogueIsDistinct(peers, target, removed);
        Install(target, catalogue);
        AppliedToNext(old(catalogues), current, catalogues, peers, i, removed);
        k := i + 1;
        if outcome == AppliedButLost {
          OneFails(peers, self, remotes, i);
          assert FailedAt(peers, self, remotes, ApplyFailed(target), i + 1, i);
          return Some(ApplyFailed(target)), k;
        }
        AnswersGoOn(peers, self, remotes, i);
      }
      assert peers[..|peers|] == peers;
      return None, k;
    }

    /** `synchronizeAgentMesh`; `order` is the storage order of this instance's own catalogue. */
    method Synchronize(self: Peer, order: seq<Endpoint>, removed: Option<Endpoint>, remotes: Remotes)
      returns (r: Result<seq<Endpoint>, MeshError>, ghost peers: seq<Peer>)
      requires Distinct(order) && forall e :: e in order <==> e in RowsOf(catalogues, self.endpoint)
      modifies this
      ensures peers == ExchangeAll(MeshPeers(self, RowsOf(old(catalogues), self.endpoint), order), self.endpoint, remotes)
      ensures r.Ok? <==>
        && Ready(MeshPeers(self, RowsOf(old(catalogues), self.endpoint), order), self.endpoint, remotes)
        && AllAnswer(peers, self.endpoint, remotes)
      ensures r.Ok? ==> |peers| >= 2 && DistinctEndpoints(peers)
      ensures r.Ok? ==> AppliedTo(old(catalogues), catalogues, peers, |peers|, removed)
      ensures r.Ok? ==> r.value == EndpointList(Desired(peers, removed))
      ensures r.Err? && !r.error.ApplyFailed? ==> catalogues == old(catalogues)
      ensures r.Err? && r.error.ApplyFailed? ==>
        DistinctEndpoints(peers) && exists k: nat :: StoppedAt(old(catalogues), catalogues, peers, self.endpoint, removed, remotes, r.error, k)
    {
      var current := MeshPeers(self, RowsOf(catalogues, self.endpoint), order);
      peers := ExchangeAll(current, self.endpoint, remotes);
      var error, exchanged := Prepare(current, self.endpoint, remotes);
      if error.Some? {
        return Err(error.value), peers;
      }
      var failure, k := ApplyAll(exchanged, self.endpoint, removed, remotes);
      if failure.Some? {
        assert StoppedAt(old(catalogues), catalogues, exchanged, self.endpoint, removed, remotes, failure.value, k);
        return Err(failure.value), peers;
      }
      return Ok(EndpointList(Desired(exchanged, removed))), peers;
    }
  }

  /** Everything before the first catalogue changes: validation, token exchange, authentication. */
  method Prepare(current: seq<Peer>, self: Endpoint, remotes: Remotes) returns (error: Option<MeshError>, exchanged: seq<Peer>)
    ensures exchanged == ExchangeAll(current, self, remotes)
    ensures error.None? <==> Ready(current, self, remotes)
    ensures error.Some? ==> !error.value.ApplyFailed?
    ensures error == Some(NoRemoteAgent) ==> |current| == 1 && ValidPeer(current[0])
    ensures error == Some(TokenRefused) ==> exists p :: p in current && p.endpoint != self && remotes.token(p.endpoint) == ""
    ensures error == Some(ValidationFailed) ==> exists p :: p in exchanged && p.endpoint != self && !remotes.validates(p.endpoint)
    ensures error.None? ==> DistinctEndpoints(exchanged)
  {
    exchanged := ExchangeAll(current, self, remotes);
    error := ValidateMeshPeers(current);
    if error.Some? {
      return;
    }
    if |current| < 2 {
      return Some(NoRemoteAgent), exchanged;
    }
    if exists p :: p in current && p.endpoint != self && remotes.token(p.endpoint) == "" {
      return Some(TokenRefused), exchanged;
    }
    if exists p :: p in exchanged && p.endpoint != self && !remotes.validates(p.endpoint) {
      return Some(ValidationFailed), exchanged;
    }
  }

  function EndpointList(peers: seq<Peer>): (r: seq<Endpoint>)
    ensures |r| == |peers| && forall i | 0 <= i < |peers| :: r[i] == peers[i].endpoint
  {
    seq(|peers|, i requires 0 <= i < |peers| => peers[i].endpoint)
  }

  lemma CatalogueIsDistinct(peers: seq<Peer>, target: Endpoint, removed: Option<Endpoint>)
    requires DistinctEndpoints(peers)
    ensures DistinctEndpoints(CatalogueFor(Desired(peers, removed), target, removed))
  {
  }

  lemma AppliedToNext(before: map<Endpoint, Catalogue>, current: map<Endpoint, Catalogue>, after: map<Endpoint, Catalogue>,
                      peers: seq<Peer>, k: nat, removed: Option<Endpoint>)
    requires k < |peers| && DistinctEndpoints(peers) && AppliedTo(before, current, peers, k, removed)
    requires Installed(RowsOf(current, peers[k].endpoint), CatalogueFor(Desired(peers, removed), peers[k].endpoint, removed),
                       peers[k].endpoint, RowsOf(after, peers[k].endpoint))
    requires forall e | e != peers[k].endpoint :: RowsOf(after, e) == RowsOf(current, e)
    ensures AppliedTo(before, after, peers, k + 1, removed)
  {
    NextTarget(before, current, peers, k, removed);
  }

  lemma NextTarget(before: map<Endpoint, Catalogue>, after: map<Endpoint, Catalogue>, peers: seq<Peer>, k: nat, removed: Option<Endpoint>)
    requires k < |peers| && DistinctEndpoints(peers) && AppliedTo(before, after, peers, k, removed)
    ensures peers[k].endpoint !in Endpoints(peers[..k])
    ensures RowsOf(after, peers[k].endpoint) == RowsOf(before, peers[k].endpoint)
    ensures Endpoints(peers[..k + 1]) == Endpoints(peers[..k]) + {peers[k].endpoint}
  {
    assert peers[..k + 1] == peers[..k] + [peers[k]];
  }

  lemma MemberKnowsPeer(before: Catalogue, rows: Catalogue, desired: seq<Peer>, own: Endpoint, peer: Peer)
    requires Installed(before, Without(desired, own), own, rows) && peer in desired && peer.endpoint != own
    ensures peer.endpoint in rows && AsPeer(peer.endpoint, rows[peer.endpoint]) == peer
  {
    assert peer in Without(desired, own);
    assert rows[peer.endpoint] == Stored(before, peer);
  }

  lemma WithoutEndpoints(peers: seq<Peer>, own: Endpoint)
    ensures Endpoints(Without(peers, own)) - {own} == Endpoints(peers) - {own}
  {
  }

  /** After a complete synchronization the mesh is a complete graph: every instance that stays knows
      every other one, with the exchanged credentials, and no one else; a removed instance knows none. */
  lemma MeshIsComplete(before: map<Endpoint, Catalogue>, after: map<Endpoint, Catalogue>, peers: seq<Peer>, removed: Option<Endpoint>, i: nat)
    requires DistinctEndpoints(peers) && AppliedTo(before, after, peers, |peers|, removed) && i < |peers|
    ensures forall e :: e in Direct(RowsOf(after, peers[i].endpoint)) <==> IsOther(peers, removed, i, e)
    ensures removed != Some(peers[i].endpoint) ==>
              forall j | 0 <= j < |peers| && j != i && removed != Some(peers[j].endpoint) ::
                && peers[j].endpoint in RowsOf(after, peers[i].endpoint)
                && AsPeer(peers[j].endpoint, RowsOf(after, peers[i].endpoint)[peers[j].endpoint]) == peers[j]
  {
    forall e ensures e in Direct(RowsOf(after, peers[i].endpoint)) <==> IsOther(peers, removed, i, e) {
      InstanceKnows(before, after, peers, removed, i, e);
    }
    if removed != Some(peers[i].endpoint) {
      var own := peers[i].endpoint;
      forall j | 0 <= j < |peers| && j != i && removed != Some(peers[j].endpoint)
        ensures peers[j].endpoint in RowsOf(after, own) && AsPeer(peers[j].endpoint, RowsOf(after, own)[peers[j].endpoint]) == peers[j]
      {
        assert peers[j] in peers;
        MemberKnowsPeer(RowsOf(before, own), RowsOf(after, own), Desired(peers, removed), own, peers[j]);
      }
    }
  }

  /** The endpoint is that of another peer, and neither the instance itself nor that peer is removed. */
  ghost predicate IsOther(peers: seq<Peer>, removed: Option<Endpoint>, i: nat, e: Endpoint)
    requires i < |peers|
  {
    removed != Some(peers[i].endpoint) && removed != Some(e) && exists j: nat :: j < |peers| && j != i && peers[j].endpoint == e
  }

  lemma InstanceKnows(before: map<Endpoint, Catalogue>, after: map<Endpoint, Catalogue>, peers: seq<Peer>, removed: Option<Endpoint>,
                      i: nat, e: Endpoint)
    requires DistinctEndpoints(peers) && AppliedTo(before, after, peers, |peers|, removed) && i < |peers|
    ensures e in Direct(RowsOf(after, peers[i].endpoint)) <==> IsOther(peers, removed, i, e)
  {
    var own := peers[i].endpoint;
    var desired := Desired(peers, removed);
    InstalledMeansPeers(RowsOf(before, own), CatalogueFor(desired, own, removed), own, RowsOf(after, own));
    assert e in Direct(RowsOf(after, own)) <==> e in Direct(RowsOf(after, own)).Keys;
    if removed != Some(own) {
      WithoutEndpoints(desired, own);
      OthersAreDesired(peers, removed, i, e);
    }
  }

  lemma OthersAreDesired(peers: seq<Peer>, removed: Option<Endpoint>, i: nat, e: Endpoint)
    requires DistinctEndpoints(peers) && i < |peers| && removed != Some(peers[i].endpoint)
    ensures e in Endpoints(Desired(peers, removed)) - {peers[i].endpoint} <==> IsOther(peers, removed, i, e)
  {
    if e in Endpoints(Desired(peers, removed)) - {peers[i].endpoint} {
      var p :| p in Desired(peers, removed) && p.endpoint == e;
      var j: nat :| j < |peers| && peers[j] == p;
    }
    if IsOther(peers, removed, i, e) {
      var j: nat :| j < |peers| && j != i && peers[j].endpoint == e;
      assert peers[j] in Desired(peers, removed);
    }
  }

  lemma WithoutLast(front: seq<Peer>, last: Peer, e: Endpoint)
    ensures Without(front + [last], e) == if last.endpoint == e then Without(front, e) else Without(front, e) + [last]
  {
    assert (front + [last])[..|front|] == front;
  }

  lemma {:induction false} WithoutAbsent(peers: seq<Peer>, e: Endpoint)
    requires e !in Endpoints(peers)
    ensures Without(peers, e) == peers
  {
    if peers == [] {
    } else {
      var front, last := peers[..|peers| - 1], peers[|peers| - 1];
      assert peers == front + [last];
      assert last in peers;
      WithoutAbsent(front, e);
      WithoutLast(front, last, e);
    }
  }

  lemma MiddleOut(front: seq<Peer>, last: Peer, i: nat)
    requires i < |front|
    ensures (front + [last])[..i] + (front + [last])[i + 1..] == (front[..i] + front[i + 1..]) + [last]
  {
  }

  lemma LastIsDistinct(front: seq<Peer>, last: Peer)
    requires DistinctEndpoints(front + [last])
    ensures DistinctEndpoints(front) && last.endpoint !in Endpoints(front)
  {
    var peers := front + [last];
    forall p | p in front ensures p.endpoint != last.endpoint {
      var j :| 0 <= j < |front| && front[j] == p;
      assert peers[j].endpoint != peers[|front|].endpoint;
    }
    forall i, j | 0 <= i < j < |front| ensures front[i].endpoint != front[j].endpoint {
      assert peers[i].endpoint != peers[j].endpoint;
    }
  }

  /** Only the removed peer is taken out of the list; the others keep their order. */
  lemma {:induction false} WithoutOne(peers: seq<Peer>, i: nat)
    requires DistinctEndpoints(peers) && i < |peers|
    ensures Without(peers, peers[i].endpoint) == peers[..i] + peers[i + 1..]
  {
    var front, last := peers[..|peers| - 1], peers[|peers| - 1];
    assert peers == front + [last];
    LastIsDistinct(front, last);
    WithoutLast(front, last, peers[i].endpoint);
    if i == |front| {
      WithoutAbsent(front, last.endpoint);
    } else {
      assert front[i] in front;
      WithoutOne(front, i);
      MiddleOut(front, last, i);
    }
  }

  /** Handing out the same catalogues again changes no instance. */
  lemma SynchronizedMeshIsStable(before: map<Endpoint, Catalogue>, mid: map<Endpoint, Catalogue>, after: map<Endpoint, Catalogue>,
                                 peers: seq<Peer>, removed: Option<Endpoint>, e: Endpoint)
    requires AppliedTo(before, mid, peers, |peers|, removed) && AppliedTo(mid, after, peers, |peers|, removed)
    ensures RowsOf(after, e) == RowsOf(mid, e)
  {
    assert peers[..|peers|] == peers;
    if e in Endpoints(peers) {
      var p :| p in peers && p.endpoint == e;
      var i :| 0 <= i < |peers| && peers[i] == p;
      InstallIdempotent(RowsOf(before, e), CatalogueFor(Desired(peers, removed), e, removed), e, RowsOf(mid, e), RowsOf(after, e));
    }
  }

  lemma MeshPeersEndpoints(self: Peer, rows: Catalogue, order: seq<Endpoint>)
    requires forall e :: e in order <==> e in rows
    ensures Endpoints(MeshPeers(self, rows, order)) == {self.endpoint} + Direct(rows).Keys
  {
    var r := MeshPeers(self, rows, order);
    assert r == [r[0]] + r[1..];
    forall p | p in r ensures p.endpoint == self.endpoint || p.endpoint in Direct(rows) {
      assert p == r[0] || p in r[1..];
    }
    assert self in r;
  }

  /** After a complete synchronization every instance that stays would start the next one with the
      same mesh. */
  lemma EveryInstanceSeesTheSameMesh(before: map<Endpoint, Catalogue>, after: map<Endpoint, Catalogue>, peers: seq<Peer>,
                                     removed: Option<Endpoint>, i: nat, self: Peer, order: seq<Endpoint>, e: Endpoint)
    requires DistinctEndpoints(peers) && AppliedTo(before, after, peers, |peers|, removed)
    requires i < |peers| && self.endpoint == peers[i].endpoint && removed != Some(self.endpoint)
    requires forall e :: e in order <==> e in RowsOf(after, self.endpoint)
    ensures e in Endpoints(MeshPeers(self, RowsOf(after, self.endpoint), order)) <==> e in Endpoints(peers) && removed != Some(e)
  {
    MeshPeersEndpoints(self, RowsOf(after, self.endpoint), order);
    InstanceKnows(before, after, peers, removed, i, e);
    SelfOrOther(peers, removed, i, e);
  }

  lemma SelfOrOther(peers: seq<Peer>, removed: Option<Endpoint>, i: nat, e: Endpoint)
    requires i < |peers| && removed != Some(peers[i].endpoint)
    ensures e == peers[i].endpoint || IsOther(peers, removed, i, e) <==> e in Endpoints(peers) && removed != Some(e)
  {
    assert peers[i] in peers;
    if e in Endpoints(peers) {
      var p :| p in peers && p.endpoint == e;
      var j: nat :| j < |peers| && peers[j] == p;
    }
  }

  // --------------------------------------------------------- what every row holds

  /** The peers are this instance and then its direct agents in storage order, each as it is stored. */
  lemma {:induction false} MeshPeersMeans(self: Peer, rows: Catalogue, order: seq<Endpoint>) returns (at: seq<nat>)
    ensures MeshPeers(self, rows, order)[0] == self && Lists(rows, order, at, MeshPeers(self, rows, order))
  {
    if order == [] {
      at := [];
    } else {
      var front, e := order[..|order| - 1], order[|order| - 1];
      at := MeshPeersMeans(self, rows, front);
      assert order == front + [e];
      if e in rows && !rows[e].reverse {
        ListsOneMore(rows, front, e, at, MeshPeers(self, rows, front));
        at := at + [|front|];
      } else {
        ListsNoMore(rows, front, e, at, MeshPeers(self, rows, front));
      }
    }
  }

  /** After the first one, the peers are the direct agents at the increasing positions `at`, and there are no others. */
  ghost predicate Lists(rows: Catalogue, order: seq<Endpoint>, at: seq<nat>, peers: seq<Peer>) {
    && |peers| == |at| + 1
    && (forall k | 0 <= k < |at| :: IsStoredAt(rows, order, at[k], peers[k + 1]))
    && (forall k, l | 0 <= k < l < |at| :: at[k] < at[l])
    && (forall n: nat | n < |order| && order[n] in rows && !rows[order[n]].reverse :: n in at)
  }

  lemma StoredUnderMore(rows: Catalogue, front: seq<Endpoint>, e: Endpoint, n: nat, p: Peer)
    requires IsStoredAt(rows, front, n, p)
    ensures n < |front| && IsStoredAt(rows, front + [e], n, p)
  {
  }

  lemma ListsNoMore(rows: Catalogue, front: seq<Endpoint>, e: Endpoint, at: seq<nat>, peers: seq<Peer>)
    requires Lists(rows, front, at, peers) && (e !in rows || rows[e].reverse)
    ensures Lists(rows, front + [e], at, peers)
  {
    forall k | 0 <= k < |at| ensures IsStoredAt(rows, front + [e], at[k], peers[k + 1]) {
      StoredUnderMore(rows, front, e, at[k], peers[k + 1]);
    }
  }

  lemma ListsOneMore(rows: Catalogue, front: seq<Endpoint>, e: Endpoint, at: seq<nat>, peers: seq<Peer>)
    requires Lists(rows, front, at, peers) && e in rows && !rows[e].reverse
    ensures Lists(rows, front + [e], at + [|front|], peers + [AsPeer(e, rows[e])])
  {
    forall k | 0 <= k < |at| ensures at[k] < |front| && IsStoredAt(rows, front + [e], at[k], peers[k + 1]) {
      StoredUnderMore(rows, front, e, at[k], peers[k + 1]);
    }
  }

  /** The peer is the direct agent stored under the `n`-th endpoint. */
  predicate IsStoredAt(rows: Catalogue, order: seq<Endpoint>, n: nat, p: Peer) {
    n < |order| && order[n] in rows && p.endpoint == order[n] &&
    var row := rows[order[n]];
    !row.reverse && p.url == row.url && p.credentials == row.credentials && p.displayName == row.displayName
  }

  /** The row that one instance holds of another after a synchronization. */
  lemma RowsAfterSynchronization(before: map<Endpoint, Catalogue>, after: map<Endpoint, Catalogue>, current: seq<Peer>,
                                 self: Endpoint, remotes: Remotes, removed: Option<Endpoint>, i: nat, j: nat)
    requires var peers := ExchangeAll(current, self, remotes);
             DistinctEndpoints(peers) && AppliedTo(before, after, peers, |peers|, removed)
    requires i < |current| && j < |current| && i != j
    requires removed != Some(current[i].endpoint) && removed != Some(current[j].endpoint)
    ensures var own, other := current[i].endpoint, current[j].endpoint;
            var prior, rows := RowsOf(before, own), RowsOf(after, own);
            && other in rows && !rows[other].reverse
            && rows[other].url == current[j].url && rows[other].displayName == current[j].displayName
            && rows[other].credentials ==
                 (if other == self then current[j].credentials else Credentials("__dockge_federation_token__", remotes.token(other)))
            && (rows[other].suppressAlerts <==> other in prior && prior[other].suppressAlerts)
  {
    var peers := ExchangeAll(current, self, remotes);
    var own := peers[i].endpoint;
    assert peers[j] in peers;
    assert peers[j] in Without(Desired(peers, removed), own);
    assert RowsOf(after, own)[peers[j].endpoint] == Stored(RowsOf(before, own), peers[j]);
  }
}
