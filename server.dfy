/**
 * The client service of server/client_service.go: it registers connecting agents as
 * clients, allocates local ports for their tunnels, removes or soft-disconnects
 * clients, and checks users' access to them.
 *
 * The service's state is the client repository (a map from client id to record) and
 * the port distributor (the allowed ports and the ports last seen busy). Each method
 * here is one atomic step. The source holds one mutex through StartClient,
 * StartClientTunnels, Terminate and ForceDelete; DeleteOffline, SetACL and
 * SetUpdatesStatus read and then save or delete a record without it.
 */
module Server {
  import opened Wrappers
  import opened Strconv
  import opened Sorting
  import opened Clients

  // ---------------------------------------------------------------- local port checks

  /** checkLocalPort: a requested local port must be an integer (else BadRequest), allowed (else BadRequest) and not busy (else Conflict). */
  function CheckLocalPort(port: string, allowed: set<int>, busy: set<int>): (r: Outcome)
    ensures r.Pass? <==> Atoi(port).Some? && Atoi(port).value in allowed && Atoi(port).value !in busy
    ensures r.Fail? ==> r.error == (if Atoi(port).Some? && Atoi(port).value in allowed then Conflict else BadRequest)
  {
    match Atoi(port)
    case None => Fail(BadRequest)
    case Some(p) =>
      if p !in allowed then Fail(BadRequest)
      else if p in busy then Fail(Conflict)
      else Pass
  }

  /** A remote without a local port after the distributor gave it port p. */
  function RandomlyResolved(r: Remote, p: int): Remote
  {
    r.(localPort := Itoa(p), localHost := "0.0.0.0", localPortRandom := true)
  }

  /** A port the distributor hands out passes the check an explicitly requested port must pass. */
  lemma RandomPortPassesCheck(r: Remote, p: int, allowed: set<int>, busy: set<int>)
    requires p in allowed && p !in busy && 0 <= p <= MaxInt64
    ensures RandomlyResolved(r, p).IsLocalSpecified()
    ensures CheckLocalPort(RandomlyResolved(r, p).localPort, allowed, busy) == Pass
  {
    AtoiItoa(p);
    DecimalDigitsValue(p);
  }

  /**
   * The checks startClientTunnels makes on one remote before it asks the client to start
   * the tunnel: a free port must exist for a remote without a local port, an explicit
   * port must pass CheckLocalPort, and an ACL, if given, must parse. On success, the
   * parsed ACL.
   */
  function Precheck(r: Remote, allowed: set<int>, busy: set<int>, parseACL: string -> Result<Option<TunnelACL>>): Result<Option<TunnelACL>>
  {
    var port :=
      if r.IsLocalSpecified() then CheckLocalPort(r.localPort, allowed, busy)
      else if allowed - busy == {} then Fail(Other(NoFreePort))
      else Pass;
    if port.Fail? then Err(port.error)
    else if r.acl.None? then Ok(None)
    else match parseACL(r.acl.value)
      case Err(_) => Err(Other(BadACL))
      case Ok(acl) => Ok(acl)
  }

  /** `resolved` is `r` itself when it names its local port, else `r` given some allowed port that is not busy. */
  ghost predicate Resolves(r: Remote, resolved: Remote, allowed: set<int>, busy: set<int>)
  {
    if r.IsLocalSpecified() then resolved == r
    else exists p :: p in allowed && p !in busy && resolved == RandomlyResolved(r, p)
  }

  /**
   * `ts` are the tunnels startClientTunnels builds for `remotes`, in order, for a client
   * that already held `held`: one per remote, each passing its checks, each on its
   * resolved remote, each accepted by the client given the tunnels before it.
   */
  ghost predicate TunnelsFor(remotes: seq<Remote>, held: seq<Tunnel>, ts: seq<Tunnel>, allowed: set<int>, busy: set<int>, env: Collaborators)
  {
    && |ts| == |remotes|
    && forall i :: 0 <= i < |ts| ==>
      && Precheck(remotes[i], allowed, busy, env.parseACL) == Ok(ts[i].acl)
      && Resolves(remotes[i], ts[i].remote, allowed, busy)
      && env.startTunnel(held + ts[..i], ts[i].remote)
  }

  /**
   * Allocation for a client that held `held` stopped with error `e` after starting `ts`:
   * the tunnels `ts` were built for the remotes before the one at index |ts|, and that
   * remote failed a check with `e`, or passed them and the client refused the tunnel on
   * its resolved remote (Conflict).
   */
  ghost predicate StopsWith(remotes: seq<Remote>, held: seq<Tunnel>, ts: seq<Tunnel>, allowed: set<int>, busy: set<int>, env: Collaborators, e: Error)
  {
    && |ts| < |remotes|
    && TunnelsFor(remotes[..|ts|], held, ts, allowed, busy, env)
    && FailsWith(remotes[|ts|], held + ts, allowed, busy, env, e)
  }

  /** One remote fails with `e` for a client holding `held`: a failed check, or a refusal by the client. */
  ghost predicate FailsWith(r: Remote, held: seq<Tunnel>, allowed: set<int>, busy: set<int>, env: Collaborators, e: Error)
  {
    || Precheck(r, allowed, busy, env.parseACL) == Err(e)
    || (&& Precheck(r, allowed, busy, env.parseACL).Ok? && e == Conflict
        && exists resolved :: Resolves(r, resolved, allowed, busy) && !env.startTunnel(held, resolved))
  }

  lemma HasMember(s: set<int>)
    requires s != {}
    ensures exists x :: x in s
  {
    if forall x :: x !in s {
      assert false;
    }
  }

  /** One more tunnel, built for the next remote, extends TunnelsFor to one more remote. */
  lemma TunnelsForStep(remotes: seq<Remote>, i: nat, held: seq<Tunnel>, ts: seq<Tunnel>, t: Tunnel, allowed: set<int>, busy: set<int>, env: Collaborators)
    requires i < |remotes| && TunnelsFor(remotes[..i], held, ts, allowed, busy, env)
    requires Precheck(remotes[i], allowed, busy, env.parseACL) == Ok(t.acl)
    requires Resolves(remotes[i], t.remote, allowed, busy)
    requires env.startTunnel(held + ts, t.remote)
    ensures TunnelsFor(remotes[..i + 1], held, ts + [t], allowed, busy, env)
  {
    assert (ts + [t])[..i] == ts;
    forall j | 0 <= j < i + 1
      ensures Precheck(remotes[..i + 1][j], allowed, busy, env.parseACL) == Ok((ts + [t])[j].acl)
      ensures Resolves(remotes[..i + 1][j], (ts + [t])[j].remote, allowed, busy)
      ensures env.startTunnel(held + (ts + [t])[..j], (ts + [t])[j].remote)
    {
      if j < i {
        assert remotes[..i + 1][j] == remotes[..i][j];
        assert (ts + [t])[..j] == ts[..j];
      }
    }
  }

  /** A client that refuses every tunnel stops allocation at the first remote, whatever the later remotes are. */
  lemma {:induction false} RefusingClientStopsAtFirst(remotes: seq<Remote>, held: seq<Tunnel>, ts: seq<Tunnel>, allowed: set<int>, busy: set<int>, env: Collaborators, e: Error)
    requires forall h, r :: !env.startTunnel(h, r)
    requires StopsWith(remotes, held, ts, allowed, busy, env, e)
    ensures ts == [] && FailsWith(remotes[0], held, allowed, busy, env, e)
  {
    if |ts| > 0 {
      FirstAccepted(remotes[..|ts|], held, ts, allowed, busy, env);
      assert false;
    }
    assert held + ts == held;
  }

  /** The first tunnel built was accepted by the client holding only `held`. */
  lemma FirstAccepted(remotes: seq<Remote>, held: seq<Tunnel>, ts: seq<Tunnel>, allowed: set<int>, busy: set<int>, env: Collaborators)
    requires TunnelsFor(remotes, held, ts, allowed, busy, env) && |ts| > 0
    ensures env.startTunnel(held, ts[0].remote)
  {
    assert held + ts[..0] == held;
  }

  // ---------------------------------------------------------------- registry predicates

  /** isClientAuthIDInUse: some record with this auth id belongs to another client id. */
  predicate AuthIdInUse(repo: map<string, Client>, clientAuthID: string, clientID: string)
  {
    exists k :: k in repo && repo[k].clientAuthId == clientAuthID && repo[k].id != clientID
  }

  /** The remotes StartClient allocates: the requested ones, then, on reconnect, the old ones to re-establish. */
  function RequestedRemotes(prior: Option<Client>, req: ConnectionRequest, env: Collaborators): seq<Remote>
  {
    match prior
    case None => req.remotes
    case Some(was) => req.remotes + env.tunnelsToReestablish(RemotesOf(was.tunnels), req.remotes)
  }

  /** The record StartClient builds before allocating tunnels: connected, no tunnels, update status carried over on reconnect. */
  function FreshClient(clientID: string, clientAuthID: string, host: string, info: Descriptor, prior: Option<Client>): Client
  {
    Client(clientID, clientAuthID, info, host, [], None, [],
           if prior.Some? then prior.value.updatesStatus else None)
  }

  /** The record filed under `id`, if any. */
  function Prior(repo: map<string, Client>, id: string): Option<Client>
  {
    if id in repo then Some(repo[id]) else None
  }

  /** The checks StartClient makes before allocating tunnels all pass. */
  predicate Admitted(repo: map<string, Client>, clientAuthID: string, clientID: string, remoteAddr: string, authMultiuseCreds: bool, env: Collaborators)
  {
    && !(clientID in repo && repo[clientID].Connected())
    && (authMultiuseCreds || !AuthIdInUse(repo, clientAuthID, clientID))
    && env.splitHost(remoteAddr).Some?
  }

  // ---------------------------------------------------------------- access

  /** The ids of the clients the user's groups give no access to, in input order. */
  function DeniedIDs(clients: seq<Client>, userGroups: seq<string>, hasAccess: (Client, seq<string>) -> bool): seq<string>
  {
    if |clients| == 0 then []
    else DeniedIDs(clients[..|clients| - 1], userGroups, hasAccess)
         + (if hasAccess(clients[|clients| - 1], userGroups) then [] else [clients[|clients| - 1].id])
  }

  /** The denied ids are exactly the ids of the clients without access, and none is missing. */
  lemma {:induction false} DeniedIDsExact(clients: seq<Client>, userGroups: seq<string>, hasAccess: (Client, seq<string>) -> bool)
    ensures |DeniedIDs(clients, userGroups, hasAccess)| == 0 <==> forall i :: 0 <= i < |clients| ==> hasAccess(clients[i], userGroups)
    ensures forall id :: id in DeniedIDs(clients, userGroups, hasAccess) <==>
      exists i :: 0 <= i < |clients| && clients[i].id == id && !hasAccess(clients[i], userGroups)
  {
    if |clients| > 0 {
      var init := clients[..|clients| - 1];
      DeniedIDsExact(init, userGroups, hasAccess);
      forall id ensures id in DeniedIDs(clients, userGroups, hasAccess) <==>
        exists i :: 0 <= i < |clients| && clients[i].id == id && !hasAccess(clients[i], userGroups)
      {
        if id in DeniedIDs(clients, userGroups, hasAccess) && id !in DeniedIDs(init, userGroups, hasAccess) {
          assert clients[|clients| - 1].id == id;
        }
        if exists i :: 0 <= i < |clients| && clients[i].id == id && !hasAccess(clients[i], userGroups) {
          var i :| 0 <= i < |clients| && clients[i].id == id && !hasAccess(clients[i], userGroups);
          if i < |clients| - 1 {
            assert init[i] == clients[i];
          }
        }
      }
    }
  }

  // ---------------------------------------------------------------- groups

  /** A group with the ids of the clients among `clients` that belong to it appended to its ids. */
  function Gathered(g: ClientGroup, clients: seq<Client>, belongsTo: (Client, seq<string>) -> bool): ClientGroup
  {
    g.(clientIDs := g.clientIDs + MemberIDs(clients, g.params, belongsTo))
  }

  /** A group with the client's id appended when the client belongs to it. */
  function WithMember(g: ClientGroup, c: Client, belongsTo: (Client, seq<string>) -> bool): ClientGroup
  {
    if belongsTo(c, g.params) then g.(clientIDs := g.clientIDs + [c.id]) else g
  }

  /** Gathering one more client is adding it to the group gathered so far. */
  lemma GatheredStep(g: ClientGroup, clients: seq<Client>, i: nat, belongsTo: (Client, seq<string>) -> bool)
    requires i < |clients|
    ensures Gathered(g, clients[..i + 1], belongsTo) == WithMember(Gathered(g, clients[..i], belongsTo), clients[i], belongsTo)
  {
    assert clients[..i + 1][..i] == clients[..i];
  }

  /** The inner loop of PopulateGroupsWithUserClients: one client offered to every group. */
  method AppendMember(groups: array<ClientGroup>, c: Client, belongsTo: (Client, seq<string>) -> bool)
    modifies groups
    ensures forall k :: 0 <= k < groups.Length ==> groups[k] == WithMember(old(groups[k]), c, belongsTo)
  {
    var j := 0;
    while j < groups.Length
      invariant 0 <= j <= groups.Length
      invariant forall k :: 0 <= k < j ==> groups[k] == WithMember(old(groups[k]), c, belongsTo)
      invariant forall k :: j <= k < groups.Length ==> groups[k] == old(groups[k])
    {
      if belongsTo(c, groups[j].params) {
        groups[j] := groups[j].(clientIDs := groups[j].clientIDs + [c.id]);
      }
      j := j + 1;
    }
  }

  /** The sorting loop of PopulateGroupsWithUserClients: every group's ids sorted in place. */
  method SortMembers(groups: array<ClientGroup>)
    modifies groups
    ensures forall k :: 0 <= k < groups.Length ==>
      && groups[k].id == old(groups[k]).id && groups[k].params == old(groups[k]).params
      && Sorted(groups[k].clientIDs) && multiset(groups[k].clientIDs) == multiset(old(groups[k]).clientIDs)
  {
    var j := 0;
    while j < groups.Length
      invariant 0 <= j <= groups.Length
      invariant forall k :: 0 <= k < j ==>
        && groups[k].id == old(groups[k]).id && groups[k].params == old(groups[k]).params
        && Sorted(groups[k].clientIDs) && multiset(groups[k].clientIDs) == multiset(old(groups[k]).clientIDs)
      invariant forall k :: j <= k < groups.Length ==> groups[k] == old(groups[k])
    {
      var sorted := SortStrings(groups[j].clientIDs);
      groups[j] := groups[j].(clientIDs := sorted);
      j := j + 1;
    }
  }

  /** BelongsToOneOf: the client matches some group. */
  predicate BelongsToOneOf(c: Client, groups: seq<ClientGroup>, belongsTo: (Client, seq<string>) -> bool)
  {
    exists g :: g in groups && belongsTo(c, g.params)
  }

  /** The ids of the clients that match a group's rules, in client order. */
  function MemberIDs(clients: seq<Client>, params: seq<string>, belongsTo: (Client, seq<string>) -> bool): seq<string>
  {
    if |clients| == 0 then []
    else MemberIDs(clients[..|clients| - 1], params, belongsTo)
         + (if belongsTo(clients[|clients| - 1], params) then [clients[|clients| - 1].id] else [])
  }

  // ---------------------------------------------------------------- the service

  class ClientService {
    /** The client repository: records by client id. */
    var repo: map<string, Client>
    /** The repository's retention of disconnected clients; None deletes them at once. */
    var keepLostClients: Option<int>
    /** The port distributor: the ports tunnels may use, and those last seen busy. */
    var allowedPorts: set<int>
    var busyPorts: set<int>

    /** Every record is filed under its own id. */
    ghost predicate Valid()
      reads this
    {
      forall id :: id in repo ==> repo[id].id == id
    }

    /** NewClientService, over a repository and a port distributor in the given states. */
    constructor (repo: map<string, Client>, keepLostClients: Option<int>, allowedPorts: set<int>, busyPorts: set<int>)
      requires forall id :: id in repo ==> repo[id].id == id
      ensures Valid()
      ensures this.repo == repo && this.keepLostClients == keepLostClients
      ensures this.allowedPorts == allowedPorts && this.busyPorts == busyPorts
    {
      this.repo := repo;
      this.keepLostClients := keepLostClients;
      this.allowedPorts := allowedPorts;
      this.busyPorts := busyPorts;
    }

    /** getExistingByID: BadRequest for an empty id, NotFound for an unknown one, else the record. */
    function GetExistingByID(clientID: string): (r: Result<Client>)
      reads this
      ensures clientID == "" ==> r == Err(BadRequest)
      ensures clientID != "" && clientID !in repo ==> r == Err(NotFound)
      ensures clientID != "" && clientID in repo ==> r == Ok(repo[clientID])
      ensures r.Ok? ==> clientID in repo && r.value == repo[clientID]
      ensures Valid() && r.Ok? ==> r.value.id == clientID
    {
      if clientID == "" then Err(BadRequest)
      else if clientID !in repo then Err(NotFound)
      else Ok(repo[clientID])
    }

    /** isClientAuthIDInUse, over the repository's records in its own (unspecified) order. */
    method IsClientAuthIDInUse(clientAuthID: string, clientID: string) returns (inUse: bool)
      ensures inUse <==> AuthIdInUse(repo, clientAuthID, clientID)
    {
      var unseen := repo.Keys;
      while unseen != {}
        invariant unseen <= repo.Keys
        invariant forall k :: k in repo && k !in unseen ==> !(repo[k].clientAuthId == clientAuthID && repo[k].id != clientID)
        decreases unseen
      {
        var k :| k in unseen;
        if repo[k].clientAuthId == clientAuthID && repo[k].id != clientID {
          return true;
        }
        unseen := unseen - {k};
      }
      return false;
    }

    /** PortDistributor.GetRandomPort: one allowed port that is not busy, chosen freely (the source picks at random), or an error when none is left. */
    method GetRandomPort() returns (r: Result<int>)
      ensures r.Ok? <==> allowedPorts - busyPorts != {}
      ensures r.Ok? ==> r.value in allowedPorts && r.value !in busyPorts
      ensures r.Err? ==> r.error == Other(NoFreePort)
    {
      var free := allowedPorts - busyPorts;
      if free == {} {
        return Err(Other(NoFreePort));
      }
      HasMember(free);
      var port :| port in free;
      return Ok(port);
    }

    /**
     * One iteration of startClientTunnels' loop: resolve the remote's local port (a port
     * from the distributor when none is named, else the named one after checkLocalPort),
     * parse its ACL if any, and have the client start the tunnel, given the tunnels the
     * client already holds.
     */
    method StartTunnelFor(remote: Remote, held: seq<Tunnel>, env: Collaborators) returns (r: Result<Tunnel>)
      ensures r.Ok? ==> Precheck(remote, allowedPorts, busyPorts, env.parseACL) == Ok(r.value.acl)
                        && Resolves(remote, r.value.remote, allowedPorts, busyPorts)
                        && env.startTunnel(held, r.value.remote)
      ensures r.Err? ==> FailsWith(remote, held, allowedPorts, busyPorts, env, r.error)
    {
      var resolved := remote;
      if !remote.IsLocalSpecified() {
        var got := GetRandomPort();
        if got.Err? {
          return Err(got.error);
        }
        var port := got.value;
        resolved := remote.(localPort := Itoa(port), localHost := "0.0.0.0", localPortRandom := true);
        assert resolved == RandomlyResolved(remote, port);
        assert Resolves(remote, resolved, allowedPorts, busyPorts);
      } else {
        var check := CheckLocalPort(remote.localPort, allowedPorts, busyPorts);
        if check.Fail? {
          return Err(check.error);
        }
      }

      var acl: Option<TunnelACL> := None;
      if resolved.acl.Some? {
        var parsed := env.parseACL(resolved.acl.value);
        if parsed.Err? {
          return Err(Other(BadACL));
        }
        acl := parsed.value;
      }

      if !env.startTunnel(held, resolved) {
        return Err(Conflict);
      }
      return Ok(Tunnel(resolved, acl));
    }

    /**
     * startClientTunnels: refresh the distributor, then start one tunnel per remote, in
     * order, stopping at the first error. `updated` is the client with the tunnels started
     * so far appended, as the source leaves its client object.
     */
    method AllocateTunnels(client: Client, remotes: seq<Remote>, env: Collaborators, refreshed: Option<set<int>>)
      returns (res: Result<seq<Tunnel>>, updated: Client)
      modifies this`busyPorts
      ensures busyPorts == if refreshed.Some? then refreshed.value else old(busyPorts)
      ensures updated == client.(tunnels := updated.tunnels) && client.tunnels <= updated.tunnels
      ensures refreshed.None? ==> res == Err(Other(RefreshFailed))
      ensures refreshed.None? ==> updated == client
      ensures res.Ok? ==> TunnelsFor(remotes, client.tunnels, res.value, allowedPorts, busyPorts, env)
                          && updated.tunnels == client.tunnels + res.value
      ensures res.Err? && refreshed.Some?
              ==> StopsWith(remotes, client.tunnels, updated.tunnels[|client.tunnels|..], allowedPorts, busyPorts, env, res.error)
    {
      updated := client;
      if refreshed.None? {
        return Err(Other(RefreshFailed)), updated;
      }
      busyPorts := refreshed.value;

      var tunnels: seq<Tunnel> := [];
      var i := 0;
      while i < |remotes|
        invariant 0 <= i <= |remotes|
        invariant updated == client.(tunnels := client.tunnels + tunnels)
        invariant TunnelsFor(remotes[..i], client.tunnels, tunnels, allowedPorts, busyPorts, env)
        invariant busyPorts == refreshed.value
      {
        var step := StartTunnelFor(remotes[i], updated.tunnels, env);
        if step.Err? {
          assert updated.tunnels[|client.tunnels|..] == tunnels;
          return Err(step.error), updated;
        }
        TunnelsForStep(remotes, i, client.tunnels, tunnels, step.value, allowedPorts, busyPorts, env);
        updated := updated.(tunnels := updated.tunnels + [step.value]);
        tunnels := tunnels + [step.value];
        i := i + 1;
      }
      assert remotes[..i] == remotes;
      res := Ok(tunnels);
    }

    /**
     * StartClient: register the agent `clientID` connecting with auth id `clientAuthID`
     * from `remoteAddr`. A connected record under the id refuses the connection; a
     * disconnected one is a reconnect, which re-establishes old tunnels and keeps the
     * update status. The auth id may not be in use by another client id unless the
     * credentials are multi-use. Nothing is saved unless every tunnel starts. The
     * tunnels are started and the client saved by StartClientTunnels, which is what the
     * source does under the lock it already holds.
     */
    method StartClient(clientAuthID: string, clientID: string, remoteAddr: string, authMultiuseCreds: bool,
                       req: ConnectionRequest, env: Collaborators, refreshed: Option<set<int>>)
      returns (res: Result<Client>)
      requires Valid()
      modifies this`repo, this`busyPorts
      ensures Valid()
      ensures clientID in old(repo) && old(repo)[clientID].Connected() ==> res == Err(Other(DuplicateId))
      ensures (!(clientID in old(repo) && old(repo)[clientID].Connected()) && !authMultiuseCreds
               && AuthIdInUse(old(repo), clientAuthID, clientID))
              ==> res == Err(Other(DuplicateAuthId))
      ensures (!(clientID in old(repo) && old(repo)[clientID].Connected())
               && (authMultiuseCreds || !AuthIdInUse(old(repo), clientAuthID, clientID))
               && env.splitHost(remoteAddr).None?)
              ==> res == Err(Other(BadAddress))
      ensures Admitted(old(repo), clientAuthID, clientID, remoteAddr, authMultiuseCreds, env) && refreshed.None?
              ==> res == Err(Other(RefreshFailed))
      ensures Admitted(old(repo), clientAuthID, clientID, remoteAddr, authMultiuseCreds, env) && refreshed.Some? && res.Err?
              ==> exists started :: StopsWith(RequestedRemotes(Prior(old(repo), clientID), req, env), [], started,
                                              allowedPorts, busyPorts, env, res.error)
      ensures busyPorts == if Admitted(old(repo), clientAuthID, clientID, remoteAddr, authMultiuseCreds, env) && refreshed.Some?
                           then refreshed.value else old(busyPorts)
      ensures res.Err? ==> repo == old(repo)
      ensures res.Ok? ==> Admitted(old(repo), clientAuthID, clientID, remoteAddr, authMultiuseCreds, env)
                          && repo == old(repo)[clientID := res.value]
                          && res.value == FreshClient(clientID, clientAuthID, env.splitHost(remoteAddr).value, req.info,
                                                      Prior(old(repo), clientID)).(tunnels := res.value.tunnels)
                          && TunnelsFor(RequestedRemotes(Prior(old(repo), clientID), req, env), [], res.value.tunnels,
                                        allowedPorts, busyPorts, env)
      ensures res.Ok? && !authMultiuseCreds ==> !AuthIdInUse(repo, clientAuthID, clientID)
    {
      var prior: Option<Client> := None;
      var remotes := req.remotes;
      if clientID in repo {
        var was := repo[clientID];
        if was.Connected() {
          return Err(Other(DuplicateId));
        }
        var oldTunnels := env.tunnelsToReestablish(RemotesOf(was.tunnels), req.remotes);
        if |oldTunnels| > 0 {
          remotes := remotes + oldTunnels;
        } else {
          assert remotes == remotes + oldTunnels;
        }
        prior := Some(was);
      }
      assert prior == Prior(repo, clientID) && remotes == RequestedRemotes(prior, req, env);

      if !authMultiuseCreds {
        var inUse := IsClientAuthIDInUse(clientAuthID, clientID);
        if inUse {
          return Err(Other(DuplicateAuthId));
        }
      }

      var host := env.splitHost(remoteAddr);
      if host.None? {
        return Err(Other(BadAddress));
      }

      var client := FreshClient(clientID, clientAuthID, host.value, req.info, prior);
      assert client.id == clientID && client.tunnels == [];
      var started := StartClientTunnels(client, remotes, env, refreshed);
      if started.Err? {
        return Err(started.error);
      }
      assert client.tunnels + started.value == started.value;
      return Ok(client.(tunnels := started.value));
    }

    /** StartClientTunnels: start tunnels for the remotes on a client and save the client with them; nothing is saved on error. */
    method StartClientTunnels(client: Client, remotes: seq<Remote>, env: Collaborators, refreshed: Option<set<int>>)
      returns (res: Result<seq<Tunnel>>)
      requires Valid()
      modifies this`repo, this`busyPorts
      ensures Valid()
      ensures busyPorts == if refreshed.Some? then refreshed.value else old(busyPorts)
      ensures refreshed.None? ==> res == Err(Other(RefreshFailed))
      ensures refreshed.Some? && res.Err? ==> exists started :: StopsWith(remotes, client.tunnels, started, allowedPorts, busyPorts, env, res.error)
      ensures res.Err? ==> repo == old(repo)
      ensures res.Ok? ==> TunnelsFor(remotes, client.tunnels, res.value, allowedPorts, busyPorts, env)
                          && repo == old(repo)[client.id := client.(tunnels := client.tunnels + res.value)]
    {
      var updated;
      res, updated := AllocateTunnels(client, remotes, env, refreshed);
      if res.Err? && refreshed.Some? {
        assert StopsWith(remotes, client.tunnels, updated.tunnels[|client.tunnels|..], allowedPorts, busyPorts, env, res.error);
      }
      if res.Ok? {
        repo := repo[client.id := updated];
      }
    }

    /**
     * Terminate: the agent's connection is gone. Without retention the record is
     * deleted; with retention the given client is saved as disconnected at `now`, but
     * only when a record with its id is present. The guard looks at the id alone, so a
     * record saved under the id since then is overwritten.
     */
    method Terminate(client: Client, now: Time)
      requires Valid()
      modifies this`repo
      ensures Valid()
      ensures keepLostClients.None? ==> repo == old(repo) - {client.id}
      ensures keepLostClients.Some? && client.id in old(repo)
              ==> repo == old(repo)[client.id := client.(disconnectedAt := Some(now))]
      ensures keepLostClients.Some? && client.id !in old(repo) ==> repo == old(repo)
    {
      if keepLostClients.None? {
        repo := repo - {client.id};
        return;
      }
      var disconnected := client.(disconnectedAt := Some(now));
      if client.id !in repo {
        return;
      }
      repo := repo[client.id := disconnected];
    }

    /**
     * ForceDelete: delete the record whatever the retention; a connected client's
     * connection is closed first (`closeSucceeds` is the outcome of that close), and a
     * failed close leaves the record in place.
     */
    method ForceDelete(client: Client, closeSucceeds: bool) returns (r: Outcome)
      requires Valid()
      modifies this`repo
      ensures Valid()
      ensures client.Connected() && !closeSucceeds ==> r == Fail(Other(CloseFailed)) && repo == old(repo)
      ensures !(client.Connected() && !closeSucceeds) ==> r == Pass && repo == old(repo) - {client.id}
    {
      if client.Connected() && !closeSucceeds {
        return Fail(Other(CloseFailed));
      }
      repo := repo - {client.id};
      return Pass;
    }

    /** DeleteOffline: delete an existing client that is disconnected; a connected one is a BadRequest. */
    method DeleteOffline(clientID: string) returns (r: Outcome)
      requires Valid()
      modifies this`repo
      ensures Valid()
      ensures old(GetExistingByID(clientID)).Err? ==> r == Fail(old(GetExistingByID(clientID)).error)
      ensures old(GetExistingByID(clientID)).Ok? && old(repo)[clientID].Connected() ==> r == Fail(BadRequest)
      ensures r.Pass? <==> clientID != "" && clientID in old(repo) && !old(repo)[clientID].Connected()
      ensures r.Pass? ==> repo == old(repo) - {clientID}
      ensures r.Fail? ==> repo == old(repo)
    {
      var existing := GetExistingByID(clientID);
      if existing.Err? {
        return Fail(existing.error);
      }
      if existing.value.Connected() {
        return Fail(BadRequest);
      }
      repo := repo - {existing.value.id};
      return Pass;
    }

    /** SetACL: replace the allowed user groups of an existing client, and nothing else. */
    method SetACL(clientID: string, allowedUserGroups: seq<string>) returns (r: Outcome)
      requires Valid()
      modifies this`repo
      ensures Valid()
      ensures r.Pass? <==> clientID != "" && clientID in old(repo)
      ensures r.Fail? ==> r.error == old(GetExistingByID(clientID)).error && repo == old(repo)
      ensures r.Pass? ==> repo == old(repo)[clientID := old(repo)[clientID].(allowedUserGroups := allowedUserGroups)]
    {
      var existing := GetExistingByID(clientID);
      if existing.Err? {
        return Fail(existing.error);
      }
      var changed := existing.value.(allowedUserGroups := allowedUserGroups);
      repo := repo[changed.id := changed];
      return Pass;
    }

    /** SetUpdatesStatus: replace the update status of an existing client, and nothing else. */
    method SetUpdatesStatus(clientID: string, updatesStatus: Option<UpdatesStatus>) returns (r: Outcome)
      requires Valid()
      modifies this`repo
      ensures Valid()
      ensures r.Pass? <==> clientID != "" && clientID in old(repo)
      ensures r.Fail? ==> r.error == old(GetExistingByID(clientID)).error && repo == old(repo)
      ensures r.Pass? ==> repo == old(repo)[clientID := old(repo)[clientID].(updatesStatus := updatesStatus)]
    {
      var existing := GetExistingByID(clientID);
      if existing.Err? {
        return Fail(existing.error);
      }
      var changed := existing.value.(updatesStatus := updatesStatus);
      repo := repo[changed.id := changed];
      return Pass;
    }

    /**
     * CheckClientsAccess: an admin passes; anyone else passes only when every client
     * gives their groups access, and otherwise gets one Forbidden error naming every
     * client without access, in input order.
     */
    method CheckClientsAccess(clients: seq<Client>, user: User, hasAccess: (Client, seq<string>) -> bool) returns (r: Outcome)
      ensures user.isAdmin ==> r == Pass
      ensures !user.isAdmin ==> (r.Pass? <==> forall i :: 0 <= i < |clients| ==> hasAccess(clients[i], user.groups))
      ensures r.Fail? ==> r.error == Forbidden(DeniedIDs(clients, user.groups, hasAccess))
                          && |DeniedIDs(clients, user.groups, hasAccess)| > 0
    {
      if user.isAdmin {
        return Pass;
      }
      var denied: seq<string> := [];
      var i := 0;
      while i < |clients|
        invariant 0 <= i <= |clients|
        invariant denied == DeniedIDs(clients[..i], user.groups, hasAccess)
      {
        assert clients[..i + 1][..i] == clients[..i];
        if !hasAccess(clients[i], user.groups) {
          denied := denied + [clients[i].id];
        }
        i := i + 1;
      }
      assert clients[..i] == clients;
      DeniedIDsExact(clients, user.groups, hasAccess);
      if |denied| > 0 {
        return Fail(Forbidden(denied));
      }
      return Pass;
    }

    /** CheckClientAccess: the lookup errors of GetExistingByID, else CheckClientsAccess on that one client. */
    method CheckClientAccess(clientID: string, user: User, hasAccess: (Client, seq<string>) -> bool) returns (r: Outcome)
      requires Valid()
      ensures GetExistingByID(clientID).Err? ==> r == Fail(GetExistingByID(clientID).error)
      ensures r.Pass? <==> clientID != "" && clientID in repo && (user.isAdmin || hasAccess(repo[clientID], user.groups))
      ensures GetExistingByID(clientID).Ok? && r.Fail? ==> r == Fail(Forbidden([clientID]))
    {
      var existing := GetExistingByID(clientID);
      if existing.Err? {
        return Fail(existing.error);
      }
      r := CheckClientsAccess([existing.value], user, hasAccess);
      assert DeniedIDs([existing.value], user.groups, hasAccess)
          == DeniedIDs([], user.groups, hasAccess) + (if hasAccess(existing.value, user.groups) then [] else [clientID]);
    }

    /**
     * GetActiveByGroups: the connected clients that belong to at least one of the
     * groups, in the repository's own (unspecified) order; none for no groups.
     */
    method GetActiveByGroups(groups: seq<ClientGroup>, belongsTo: (Client, seq<string>) -> bool) returns (res: seq<Client>)
      requires Valid()
      ensures |groups| == 0 ==> res == []
      ensures forall c :: c in res <==> c.id in repo && repo[c.id] == c && c.Connected() && BelongsToOneOf(c, groups, belongsTo)
      ensures forall i, j :: 0 <= i < j < |res| ==> res[i].id != res[j].id
    {
      if |groups| == 0 {
        return [];
      }
      res := [];
      var unseen := repo.Keys;
      while unseen != {}
        invariant unseen <= repo.Keys
        invariant forall c :: c in res <==> c.id in repo && c.id !in unseen && repo[c.id] == c && c.Connected() && BelongsToOneOf(c, groups, belongsTo)
        invariant forall i, j :: 0 <= i < j < |res| ==> res[i].id != res[j].id
        decreases unseen
      {
        var k :| k in unseen;
        var cur := repo[k];
        if cur.Connected() && BelongsToOneOf(cur, groups, belongsTo) {
          res := res + [cur];
        }
        unseen := unseen - {k};
      }
    }

    /**
     * PopulateGroupsWithUserClients: append to each group the ids of the user's clients
     * that belong to it, then sort each group's ids. `userClients` are the clients the
     * repository lets the user see.
     */
    method PopulateGroupsWithUserClients(groups: array<ClientGroup>, userClients: seq<Client>, belongsTo: (Client, seq<string>) -> bool)
      modifies groups
      ensures forall k :: 0 <= k < groups.Length ==>
        && groups[k].id == old(groups[k]).id && groups[k].params == old(groups[k]).params
        && Sorted(groups[k].clientIDs)
        && multiset(groups[k].clientIDs) == multiset(Gathered(old(groups[k]), userClients, belongsTo).clientIDs)
    {
      ghost var initial := groups[..];
      var i := 0;
      while i < |userClients|
        invariant 0 <= i <= |userClients|
        invariant forall k :: 0 <= k < groups.Length ==> groups[k] == Gathered(initial[k], userClients[..i], belongsTo)
      {
        ghost var before := groups[..];
        AppendMember(groups, userClients[i], belongsTo);
        forall k | 0 <= k < groups.Length
          ensures groups[k] == Gathered(initial[k], userClients[..i + 1], belongsTo)
        {
          GatheredStep(initial[k], userClients, i, belongsTo);
          assert before[k] == Gathered(initial[k], userClients[..i], belongsTo);
        }
        i := i + 1;
      }
      assert userClients[..i] == userClients;
      SortMembers(groups);
    }
  }
}
