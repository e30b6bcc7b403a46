/**
 * Whole-service behaviours of the client service, each as a short run of its
 * operations on a service built for the occasion: a connected id cannot register
 * twice, an auth id cannot serve two connected ids, reconnecting re-establishes old
 * tunnels, the retention setting decides what Terminate does, Terminate after
 * ForceDelete brings nothing back while no other record takes the id (and overwrites
 * one that does), access denials are aggregated, and group member
 * lists come out sorted whatever the order of the clients.
 */
module Scenarios {
  import opened Wrappers
  import opened Sorting
  import opened Clients
  import opened Server

  /** While the first registration of an id stays connected, a second one is refused. */
  method RepeatedStartIsRefused(repo: map<string, Client>, allowed: set<int>, busy: set<int>,
                                clientAuthID: string, clientID: string, remoteAddr: string, authMultiuseCreds: bool,
                                first: ConnectionRequest, second: ConnectionRequest, env: Collaborators,
                                refreshed1: Option<set<int>>, refreshed2: Option<set<int>>)
    returns (r1: Result<Client>, r2: Result<Client>)
    requires forall id :: id in repo ==> repo[id].id == id
    ensures r1.Ok? ==> r2 == Err(Other(DuplicateId))
  {
    var svc := new ClientService(repo, None, allowed, busy);
    r1 := svc.StartClient(clientAuthID, clientID, remoteAddr, authMultiuseCreds, first, env, refreshed1);
    r2 := svc.StartClient(clientAuthID, clientID, remoteAddr, authMultiuseCreds, second, env, refreshed2);
  }

  /**
   * With single-use credentials, once id `a` is connected with an auth id, another id
   * `b` presenting the same auth id is refused: as a duplicate id if `b` is itself
   * connected, else as a duplicate auth id.
   */
  method SharedAuthIdIsRefused(repo: map<string, Client>, allowed: set<int>, busy: set<int>,
                               clientAuthID: string, a: string, b: string, remoteAddr: string,
                               reqA: ConnectionRequest, reqB: ConnectionRequest, env: Collaborators,
                               refreshedA: Option<set<int>>, refreshedB: Option<set<int>>)
    returns (ra: Result<Client>, rb: Result<Client>)
    requires forall id :: id in repo ==> repo[id].id == id
    requires a != b
    ensures ra.Ok? ==> rb.Err?
    ensures ra.Ok? && !(b in repo && repo[b].Connected()) ==> rb == Err(Other(DuplicateAuthId))
  {
    var svc := new ClientService(repo, None, allowed, busy);
    ra := svc.StartClient(clientAuthID, a, remoteAddr, false, reqA, env, refreshedA);
    if ra.Ok? {
      assert svc.repo[a].clientAuthId == clientAuthID && svc.repo[a].id != b;
    }
    rb := svc.StartClient(clientAuthID, b, remoteAddr, false, reqB, env, refreshedB);
  }

  /**
   * A disconnected client that held a tunnel for `remoteA` reconnects asking only for
   * `remoteB`; when `remoteA` is to be re-established, the new record holds a tunnel
   * for `remoteB` followed by one for `remoteA`, and keeps the old update status.
   */
  method ReconnectReestablishes(repo: map<string, Client>, allowed: set<int>, busy: set<int>,
                                clientAuthID: string, clientID: string, remoteAddr: string, authMultiuseCreds: bool,
                                info: Descriptor, remoteA: Remote, aclA: Option<TunnelACL>, remoteB: Remote,
                                env: Collaborators, refreshed: Option<set<int>>)
    returns (r: Result<Client>)
    requires forall id :: id in repo ==> repo[id].id == id
    requires clientID in repo && !repo[clientID].Connected() && repo[clientID].tunnels == [Tunnel(remoteA, aclA)]
    requires env.tunnelsToReestablish([remoteA], [remoteB]) == [remoteA]
    ensures r.Ok? ==> refreshed.Some? && |r.value.tunnels| == 2
                      && Resolves(remoteB, r.value.tunnels[0].remote, allowed, refreshed.value)
                      && Resolves(remoteA, r.value.tunnels[1].remote, allowed, refreshed.value)
    ensures r.Ok? ==> r.value.updatesStatus == repo[clientID].updatesStatus && r.value.Connected()
  {
    var svc := new ClientService(repo, None, allowed, busy);
    assert RemotesOf([Tunnel(remoteA, aclA)]) == [remoteA];
    r := svc.StartClient(clientAuthID, clientID, remoteAddr, authMultiuseCreds, ConnectionRequest(info, [remoteB]), env, refreshed);
    if r.Ok? {
      assert RequestedRemotes(Some(repo[clientID]), ConnectionRequest(info, [remoteB]), env) == [remoteB, remoteA];
    }
  }

  /**
   * Without retention Terminate removes the record; with retention a record that was
   * there stays, marked disconnected, and the repository still returns it.
   */
  method RetentionDecidesTerminate(repo: map<string, Client>, keepLostClients: Option<int>, client: Client, now: Time)
    returns (after: Option<Client>)
    requires forall id :: id in repo ==> repo[id].id == id
    ensures keepLostClients.None? ==> after.None?
    ensures keepLostClients.Some? && client.id in repo ==> after.Some? && !after.value.Connected()
    ensures keepLostClients.Some? && client.id !in repo ==> after.None?
  {
    var svc := new ClientService(repo, keepLostClients, {}, {});
    svc.Terminate(client, now);
    after := Prior(svc.repo, client.id);
  }

  /** Terminate after a ForceDelete that went through does not bring the record back. */
  method TerminateAfterForceDelete(repo: map<string, Client>, keepLostClients: Option<int>, client: Client,
                                   closeSucceeds: bool, now: Time)
    returns (r: Outcome, after: Option<Client>)
    requires forall id :: id in repo ==> repo[id].id == id
    ensures !client.Connected() || closeSucceeds ==> r == Pass
    ensures r.Pass? ==> after.None?
  {
    var svc := new ClientService(repo, keepLostClients, {}, {});
    r := svc.ForceDelete(client, closeSucceeds);
    svc.Terminate(client, now);
    after := Prior(svc.repo, client.id);
  }

  /**
   * With retention, a client `c` is force-deleted and an agent then registers again under
   * its id. When the old connection's Terminate arrives for `c`, the guard finds a record
   * under the id and saves `c` marked disconnected over the live record.
   */
  method TerminateOverwritesReconnect(repo: map<string, Client>, keep: int, allowed: set<int>, busy: set<int>,
                                      c: Client, clientAuthID: string, remoteAddr: string, authMultiuseCreds: bool,
                                      req: ConnectionRequest, env: Collaborators, refreshed: Option<set<int>>, now: Time)
    returns (r: Result<Client>, after: Option<Client>)
    requires forall id :: id in repo ==> repo[id].id == id
    ensures r.Ok? ==> r.value.Connected() && after == Some(c.(disconnectedAt := Some(now))) && !after.value.Connected()
  {
    var svc := new ClientService(repo, Some(keep), allowed, busy);
    var deleted := svc.ForceDelete(c, true);
    r := svc.StartClient(clientAuthID, c.id, remoteAddr, authMultiuseCreds, req, env, refreshed);
    svc.Terminate(c, now);
    after := Prior(svc.repo, c.id);
  }

  /** A client gives access to a user when it restricts no groups or shares one with the user. */
  predicate HasAccess(c: Client, userGroups: seq<string>)
  {
    |c.allowedUserGroups| == 0 || exists g :: g in c.allowedUserGroups && g in userGroups
  }

  /** Of C1 (group G1) and C2 (group G2), a non-admin user in G1 is denied exactly C2. */
  method AccessDenialNamesC2(info: Descriptor) returns (r: Outcome)
    ensures r == Fail(Forbidden(["C2"]))
  {
    var svc := new ClientService(map[], None, {}, {});
    var c1 := Client("C1", "auth1", info, "", [], None, ["G1"], None);
    var c2 := Client("C2", "auth2", info, "", [], None, ["G2"], None);
    assert HasAccess(c1, ["G1"]) by {
      assert "G1" in c1.allowedUserGroups && "G1" in ["G1"];
    }
    assert !HasAccess(c2, ["G1"]) by {
      assert "G1" != "G2";
    }
    assert DeniedIDs([c1, c2], ["G1"], HasAccess) == ["C2"] by {
      assert [c1, c2][..1] == [c1] && [c1][..0] == [];
      assert DeniedIDs([c1], ["G1"], HasAccess) == [];
    }
    r := svc.CheckClientsAccess([c1, c2], User(false, ["G1"]), HasAccess);
  }

  /** Clients c2 then c1, both in group G, give G the member list [c1, c2]. */
  method GroupMembersSorted(info: Descriptor, params: seq<string>, belongsTo: (Client, seq<string>) -> bool)
    returns (members: seq<string>)
    requires forall c: Client :: belongsTo(c, params)
    ensures members == ["c1", "c2"]
  {
    var svc := new ClientService(map[], None, {}, {});
    var c1 := Client("c1", "", info, "", [], None, [], None);
    var c2 := Client("c2", "", info, "", [], None, [], None);
    var groups := new ClientGroup[1](_ => ClientGroup("G", params, []));
    svc.PopulateGroupsWithUserClients(groups, [c2, c1], belongsTo);
    BothMembers(c2, c1, params, belongsTo);
    members := groups[0].clientIDs;
    OnlySortedOrder(members);
  }

  /** Two clients that both belong to a group contribute their ids in client order. */
  lemma BothMembers(a: Client, b: Client, params: seq<string>, belongsTo: (Client, seq<string>) -> bool)
    requires belongsTo(a, params) && belongsTo(b, params)
    ensures MemberIDs([a, b], params, belongsTo) == [a.id, b.id]
  {
    assert [a, b][..1] == [a] && [a][..0] == [];
    assert MemberIDs([a], params, belongsTo) == [a.id];
  }

  /** The only sorted arrangement of "c2" and "c1" is ["c1", "c2"]. */
  lemma OnlySortedOrder(m: seq<string>)
    requires Sorted(m) && multiset(m) == multiset([] + ["c2", "c1"])
    ensures m == ["c1", "c2"]
  {
    assert multiset([] + ["c2", "c1"]) == multiset(["c1", "c2"]);
    assert Below("c1", "c2") by {
      assert "c1"[0] == "c2"[0] && "c1"[1..] == "1" && "c2"[1..] == "2";
    }
    SortedUnique(m, ["c1", "c2"]);
  }
}
