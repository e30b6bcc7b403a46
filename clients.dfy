/**
 * The entities the client service works on: client records, the remotes an agent asks
 * for, the tunnels built from them, client groups and users, and the typed errors the
 * service returns. The collaborators whose code is not part of this model are bundled
 * in `Collaborators`.
 */
module Clients {
  import opened Wrappers

  /** What a plain (non-API) error of the service is about. */
  datatype Cause =
    | DuplicateId     // "client id ... is already in use"
    | DuplicateAuthId // "client auth ID is already in use"
    | BadAddress      // the agent's address could not be split into host and port
    | RefreshFailed   // the port distributor could not refresh its busy set
    | NoFreePort      // the port distributor has no allowed port left that is not busy
    | BadACL          // a tunnel ACL string did not parse
    | CloseFailed     // closing the agent's connection failed

  /** The error kinds: API errors carry an HTTP status, the rest are plain errors. */
  datatype Error =
    | BadRequest                         // API error, status 400
    | NotFound                           // API error, status 404
    | Conflict                           // API error, status 409
    | Forbidden(deniedIds: seq<string>)  // API error, status 403, naming the denied clients
    | Other(cause: Cause)

  datatype Result<T> = Ok(value: T) | Err(error: Error)

  datatype Outcome = Pass | Fail(error: Error)

  /** A point in time, as the caller's clock reports it. */
  type Time = int

  /** The update status a client reports: an opaque blob to this service. */
  type UpdatesStatus = string

  /** A requested port forward: local side on the server, remote side on the agent. */
  datatype Remote = Remote(
    localHost: string,
    localPort: string,
    localPortRandom: bool,
    remoteHost: string,
    remotePort: string,
    acl: Option<string>)
  {
    /** The remote names the local port it wants. */
    predicate IsLocalSpecified()
    {
      localPort != ""
    }
  }

  /** A parsed tunnel ACL; its rules are opaque here. */
  datatype TunnelACL = TunnelACL(rules: seq<string>)

  datatype Tunnel = Tunnel(remote: Remote, acl: Option<TunnelACL>)

  /** The free-form descriptive fields an agent reports about itself (name, OS, hardware, addresses, tags). */
  datatype Descriptor = Descriptor(
    name: string,
    os: string,
    osFullName: string,
    osVersion: string,
    hostname: string,
    cpuModelName: string,
    numCPUs: int,
    memoryTotal: int,
    timezone: string,
    ipv4: seq<string>,
    ipv6: seq<string>,
    tags: seq<string>,
    version: string)

  /** A client record as the repository holds it. */
  datatype Client = Client(
    id: string,
    clientAuthId: string,
    info: Descriptor,
    address: string,
    tunnels: seq<Tunnel>,
    disconnectedAt: Option<Time>,
    allowedUserGroups: seq<string>,
    updatesStatus: Option<UpdatesStatus>)
  {
    predicate Connected()
    {
      disconnectedAt.None?
    }
  }

  /** What an agent sends when it connects. */
  datatype ConnectionRequest = ConnectionRequest(info: Descriptor, remotes: seq<Remote>)

  datatype User = User(isAdmin: bool, groups: seq<string>)

  /** A client group: its matching rules (opaque here) and the member ids gathered for it. */
  datatype ClientGroup = ClientGroup(id: string, params: seq<string>, clientIDs: seq<string>)

  /**
   * The collaborators whose code is not part of this model, as functions:
   * the host part of an address (None when it cannot be split),
   * the old remotes to re-establish on reconnect given the old and the requested ones,
   * the parsing of a tunnel ACL (an error, or the ACL it yields, which may be none), and whether a client holding
   * the given tunnels accepts a new tunnel for the given remote.
   */
  datatype Collaborators = Collaborators(
    splitHost: string -> Option<string>,
    tunnelsToReestablish: (seq<Remote>, seq<Remote>) -> seq<Remote>,
    parseACL: string -> Result<Option<TunnelACL>>,
    startTunnel: (seq<Tunnel>, Remote) -> bool)

  /** The remotes of a list of tunnels, in order. */
  function RemotesOf(ts: seq<Tunnel>): seq<Remote>
  {
    seq(|ts|, i requires 0 <= i < |ts| => ts[i].remote)
  }
}
