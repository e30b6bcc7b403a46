# rport client service and query builder, modelled in Dafny

This project models two parts of the rport server.

**The client service** (`server/client_service.go`) keeps the registry of connected agents ("clients"):

- `StartClient` registers an agent. It refuses an id that is already connected. It refuses an auth id that another client id already uses, unless the credentials are multi-use. On reconnect it re-establishes the old tunnels and keeps the old update status.
- Tunnel allocation gives each requested remote a local port. A remote that names no port gets one from the port distributor. A remote that names one must pass `checkLocalPort`. Allocation stops at the first failure, and a failed registration saves nothing.
- `Terminate` deletes a client, or soft-deletes it when lost clients are retained. It saves the disconnected client only when a record with the client's id is present, so right after a force-delete it brings nothing back.
- `ForceDelete` and `DeleteOffline` remove records.
- `SetACL` and `SetUpdatesStatus` change one field of a record.
- `CheckClientAccess` and `CheckClientsAccess` aggregate access denials into one Forbidden error.
- `GetActiveByGroups` and `PopulateGroupsWithUserClients` relate clients to client groups.

The service's state is a class, `Server.ClientService`:

- the client repository, a map from client id to client record;
- the retention setting;
- the port distributor: the set of allowed ports and the set of ports last seen busy.

Each public method is one atomic step. In the source, `StartClient`, `StartClientTunnels`, `Terminate` and `ForceDelete` hold the service's mutex. `DeleteOffline`, `SetACL` and `SetUpdatesStatus` do not take it.

**The SQL-fragment builder** (`share/query/convert.go`) extends a base query:

- a WHERE clause built from filters, chained with AND when the query already has one;
- an ORDER BY clause;
- the qualified column list in place of `SELECT *`;
- `LIMIT ? OFFSET ?`.

It collects the parameters for the `?` placeholders as it goes. Each step has two parts:

- a specification function (`Where`, `OrderBy`, `StarReplaced`, `Limits`, `LimitOffset`);
- where the source loops, a method that keeps the source's loop and is proved to compute that function.

The lemmas prove three things:

- the input query is a prefix of the output whenever the star replacement cannot apply: there are no field options, or the query has at least nine characters and does not start with `SELECT * `. A shorter query such as `SELECT *` can gain the missing space from the WHERE clause and then have its `*` replaced;
- there is exactly one placeholder per appended parameter;
- `*` is replaced once, at its place.

Supporting modules:

- `Wrappers`: `Option`.
- `Text`: the `strings` functions the builder uses, with ASCII upper-casing.
- `Strconv`: `Itoa` and `Atoi` for 64-bit integers, with their round trip.
- `Sorting`: `sort.Strings`, as an insertion sort proved sorted and a permutation, plus the uniqueness of a sorted permutation.
- `Clients`: the entities and error kinds.
- `Scenarios`: whole-service behaviours, written as short runs of the service's operations.

Errors are kinds, not message strings:

- BadRequest (400), NotFound (404), Conflict (409), and Forbidden (403), which carries the denied ids.
- `Other(cause)` for the plain wrapped errors of the source.

The model follows the code in these points, where it does less than one might expect:

- "client id is already in use" and "client auth ID is already in use" are plain errors in the code (`Other(DuplicateId)`, `Other(DuplicateAuthId)`), not conflicts with status 409.
- `isClientAuthIDInUse` looks at every record with the auth id, connected or not, not only at connected ones.
- On reconnect the new record does not keep the old `AllowedUserGroups`. Only `UpdatesStatus` is carried over (server/client_service.go:247-249).
- `addWhere` on filters that are all limit filters still appends `" WHERE "` (or `" AND "`) with nothing after it. `Query.WhereOnlyLimitFilters` states this behaviour as written.

## Model

| member | source | states |
|---|---|---|
| Server.CheckLocalPort | server/client_service.go:323-348 | a local port passes iff it parses as a 64-bit integer, is allowed and is not busy; an unparsable or disallowed port is BadRequest, an allowed busy one Conflict |
| Server.RandomPortPassesCheck | server/client_service.go:288-295 | a remote given a distributor port (allowed, not busy) is then local-specified, on "0.0.0.0", marked random, and its port passes the explicit-port check |
| Strconv.Atoi | server/client_service.go:324 | strconv.Atoi yields a value only within the 64-bit range |
| Strconv.AtoiItoa | server/client_service.go:293 | the port written with strconv.Itoa reads back as the same integer |
| Server.ClientService.constructor | server/client_service.go:91-100 | the service starts over the given repository and port distributor, with every record filed under its own id |
| Server.ClientService.GetExistingByID | server/client_service.go:467-489 | an empty id is BadRequest, an unknown id NotFound, otherwise the record filed under that id |
| Server.ClientService.IsClientAuthIDInUse | server/client_service.go:400-408 | true iff some record with this auth id has an id other than the given one |
| Server.ClientService.GetRandomPort | server/client_service.go:289-292 | a port that is allowed and not busy when one exists, else the distributor's error |
| Server.ClientService.StartTunnelFor | server/client_service.go:287-318 | one remote: its tunnel passed the checks (port then ACL), sits on the resolved remote and was accepted by the client; or the error is the first failing check's error, or Conflict when the checks passed and the client refused the tunnel on the resolved remote |
| Server.ClientService.AllocateTunnels | server/client_service.go:280-321 | a refresh failure returns RefreshFailed with the client untouched and no tunnel started; otherwise one tunnel per remote in order, each remote's checks passed and its tunnel accepted by the client; or the error of the first remote that failed (a check, or the client's refusal), every earlier remote having got its tunnel; the client ends with the tunnels started before the stop appended, with no rollback |
| Server.ClientService.StartClient | server/client_service.go:180-261 | a connected id is refused; then a used auth id (single-use credentials only); then an unsplittable address; a tunnel failure saves nothing and its error is that of the first remote that failed, the requested remotes before those to re-establish; on success the repository maps the id to a connected record with the agent's host, no prior ACL, the old update status, and tunnels for the requested remotes followed by those to re-establish; the auth id is then in use by no other id |
| Server.RefusingClientStopsAtFirst | server/client_service.go:311-316 | when the client refuses every tunnel, allocation stops at the first remote, with no tunnel started |
| Server.ClientService.StartClientTunnels | server/client_service.go:263-278 | the tunnels are started as by startClientTunnels and the client is saved with them; on error nothing is saved and the error is that of the first remote that failed |
| Server.ClientService.Terminate | server/client_service.go:350-369 | without retention the record is deleted; with retention it is saved disconnected at the given time only if it is still present, and otherwise the repository is unchanged |
| Server.ClientService.ForceDelete | server/client_service.go:371-382 | a connected client whose close fails keeps its record and reports the failure; otherwise the record is deleted whatever the retention |
| Server.ClientService.DeleteOffline | server/client_service.go:384-398 | lookup errors pass through, a connected client is BadRequest, and it succeeds iff the record exists and is disconnected, deleting exactly it |
| Server.ClientService.SetACL | server/client_service.go:410-419 | succeeds iff the record exists; then only its allowed user groups change |
| Server.ClientService.SetUpdatesStatus | server/client_service.go:421-430 | succeeds iff the record exists; then only its update status changes |
| Server.ClientService.CheckClientsAccess | server/client_service.go:443-465 | an admin always passes; anyone else passes iff every client gives access, else one Forbidden error listing the denied ids in input order |
| Server.DeniedIDsExact | server/client_service.go:450-462 | the denied list is empty iff every client gives access, and holds exactly the ids of the clients without access |
| Server.ClientService.CheckClientAccess | server/client_service.go:432-441 | lookup errors pass through; it passes iff the record exists and the user is admin or has access; a denial names exactly that id |
| Server.ClientService.GetActiveByGroups | server/client_service.go:140-152 | no groups give nothing; otherwise exactly the connected records that belong to some group, each once |
| Server.ClientService.PopulateGroupsWithUserClients | server/client_service.go:154-166 | each group keeps its id and rules, and its member ids are sorted and are its old ids plus the ids of the user's clients that belong to it |
| Sorting.SortStrings | server/client_service.go:163-165 | the result is sorted and a permutation of the input |
| Sorting.SortedUnique | server/client_service.go:163-165 | two sorted permutations of the same strings are equal, so the sorted member lists do not depend on the order of the clients |
| Scenarios.RepeatedStartIsRefused | server/client_service.go:188-195 | after a successful registration, a second one under the same id is refused |
| Scenarios.SharedAuthIdIsRefused | server/client_service.go:205-208 | with single-use credentials, once id a is registered with an auth id, another id b with that auth id is refused |
| Scenarios.ReconnectReestablishes | server/client_service.go:192-202 | a disconnected client with a tunnel for remote A that reconnects asking for B gets tunnels for B then A, keeps its update status and is connected |
| Scenarios.RetentionDecidesTerminate | server/client_service.go:350-369 | without retention the record is gone after Terminate; with retention a present record remains, disconnected |
| Scenarios.TerminateAfterForceDelete | server/client_service.go:371-382 | a ForceDelete that went through followed by Terminate leaves no record, whatever the retention |
| Scenarios.TerminateOverwritesReconnect | server/client_service.go:360-368 | with retention, ForceDelete, then a successful StartClient under the same id, then the old client's Terminate leaves the old client, disconnected, in place of the connected record |
| Scenarios.AccessDenialNamesC2 | server/client_service.go:443-465 | with C1 in G1 and C2 in G2, a non-admin user in G1 is refused with exactly C2 named |
| Scenarios.GroupMembersSorted | server/client_service.go:154-166 | clients c2 then c1, both in a group, leave it the member list [c1, c2] |
| Query.Where | share/query/convert.go:27-59 | the input query and parameters are prefixes of addWhere's output |
| Query.AddWhere | share/query/convert.go:27-59 | the loop computes Where: no filters change nothing; otherwise the query, the connector and the non-limit conditions joined by " AND ", with each non-limit filter's values appended in order |
| Query.WhereSplit | share/query/convert.go:33-49 | conditions and parameters come filter by filter: those of a concatenation are those of its parts, in order |
| Query.WherePartPlaceholders | share/query/convert.go:37-47 | a condition holds one placeholder per value of its filter |
| Query.WherePartsPlaceholders | share/query/convert.go:33-49 | the conditions hold as many placeholders as parameters are collected |
| Query.WherePlaceholders | share/query/convert.go:27-59 | addWhere adds one placeholder per parameter it appends |
| Query.WhereOnlyLimitFilters | share/query/convert.go:33-58 | with only limit filters, addWhere appends the bare connector and no parameter |
| Query.WhereChainsWithAnd | share/query/convert.go:51-56 | after a WHERE clause is added, the next addWhere connects with " AND " |
| Query.AddLimit | share/query/convert.go:61-71 | the loop appends " LIMIT v" for the first value of each limit filter, in filter order |
| Query.SortTerms | share/query/convert.go:77-84 | one term per sort option, in order, each the column with ASC or DESC |
| Query.OrderBy | share/query/convert.go:73-90 | the query is a prefix of the result |
| Query.AddOrderBy | share/query/convert.go:73-90 | the loop computes OrderBy: no sorts leave the query alone, otherwise " ORDER BY " and the terms joined by ", " are appended |
| Query.SortTermsHaveNoMarks | share/query/convert.go:77-84 | sort terms contain no placeholder |
| Query.OrderByPlaceholders | share/query/convert.go:73-90 | ORDER BY adds no placeholder |
| Query.ReplaceStarSelect | share/query/convert.go:92-108 | the loops compute StarReplaced: unchanged unless the query starts with "SELECT * " (in any case) and there are field options; then the first "*" becomes the comma-joined resource.field list |
| Query.StarAtSeven | share/query/convert.go:93 | a query that starts with "SELECT * " has its first "*" at position 7 |
| Query.StarReplacedOnce | share/query/convert.go:92-108 | the replacement keeps everything but the one "*" of "SELECT *" |
| Query.QualifiedHasNoMarks | share/query/convert.go:102-104 | qualified fields contain no placeholder |
| Query.FieldListHasNoMarks | share/query/convert.go:100-105 | the whole field list contains no placeholder |
| Query.StarReplacedPlaceholders | share/query/convert.go:92-108 | the star replacement adds no placeholder |
| Query.LimitOffset | share/query/convert.go:110-119 | no pagination is the identity; otherwise " LIMIT ? OFFSET ?" and the limit then the offset are appended |
| Query.LimitOffsetPlaceholders | share/query/convert.go:110-119 | addLimitOffset adds as many placeholders as parameters: none, or two |
| Query.AppendOptionsToQuery | share/query/convert.go:18-25 | the steps run in order: where, order by, star replacement, limit/offset |
| Query.ConvertListOptionsToQuery | share/query/convert.go:8-10 | the pipeline started with no parameters |
| Query.ConvertRetrieveOptionsToQuery | share/query/convert.go:12-16 | only the star replacement applies |
| Query.AppendedKeepsPrefix | share/query/convert.go:18-25 | with no field options, or with a query of at least nine characters that does not start with "SELECT * ", the input query and parameters are prefixes of the output |
| Query.AppendedReplacesStar | share/query/convert.go:18-25 | with field options on a "SELECT *" query, the output starts with the query whose "*" is replaced by the field list |
| Query.AppendedPlaceholders | share/query/convert.go:18-25 | when the options contain no "?", the pipeline writes exactly one placeholder per parameter it appends |
| Text.ContainsAt | share/query/convert.go:53 | strings.Contains finds a substring iff it starts at some position |
| Text.ReplaceFirstAt | share/query/convert.go:107 | strings.Replace with count 1 replaces the first occurrence and keeps the rest |
| Text.CountReplaceFirst | share/query/convert.go:107 | the replacement changes the count of another character by its count in the replacement text, if the target occurs |

## Left out

- Server.ClientService.Terminate: like the source (server/client_service.go:360-368), its guard checks only that some record has the client's id and then saves the given client. The model does not promise that a force-deleted client stays gone once another registration has taken its id. Scenarios.TerminateOverwritesReconnect shows the stale overwrite. Go would tell the records apart by pointer identity, which this model does not have.
- The mutex (server/client_service.go:29 and the Lock/Unlock pairs). Each method is one atomic step, and concurrency is not modelled.
- Server.ClientService.DeleteOffline, Server.ClientService.SetACL, Server.ClientService.SetUpdatesStatus: the source does not lock these (server/client_service.go:384-430). Each one reads a record and then saves or deletes it. The model makes each one atomic, so it does not capture a stale record written back over one that a concurrent `StartClient` or `Terminate` saved in between.
- Repository and distributor I/O:
  - The repository is an in-memory map, so its lookup, save and delete errors are not modelled.
  - The distributor's refresh is a parameter `refreshed`: None is a failed refresh, Some is the new busy set.
- Foreign code whose source is not part of this model becomes parameters:
  - `net.SplitHostPort`, `clients.ParseTunnelACL`, `client.StartTunnel` and `GetTunnelsToReestablish` are functions in `Collaborators`. `ParseTunnelACL` returns an error or an ACL that may be absent, as its two Go results allow; any parse error becomes the cause `BadACL`.
  - `BelongsTo` and `HasAccess` are function parameters. GetActiveByGroups counts a client as in the groups when `BelongsTo` holds for the rules of at least one group in the list (`Server.BelongsToOneOf`); server/client_service.go does not show how the rules are matched.
  - The outcome of `client.Close` is the parameter `closeSucceeds`.
  - `time.Now()` is the parameter `now`.
- The connection handle, context and logger stored on a client, and the descriptive fields beyond those in `Descriptor`, are not modelled.
- In-place updates through shared pointers are modelled on values: the client object, the remotes, `req.Remotes` and the group objects. A tunnel records its resolved remote rather than mutating the caller's remote. `PopulateGroupsWithUserClients` works on an array of group values.
- Server.ClientService.AllocateTunnels: it does not model port uniqueness within one batch. The busy set changes only on refresh, so two port-less remotes in one call may be offered the same port. Telling them apart is left to `client.StartTunnel`, which is not part of this model.
- Server.ClientService.GetRandomPort: the random choice is modelled as an unspecified choice among the free ports.
- Server.ClientService.PopulateGroupsWithUserClients: the user's clients are a parameter, because `GetUserClients` filters by the repository's access rules. Its ignored error is not modelled.
- Server.ClientService.GetActiveByGroups: the repository's order of the active clients is unspecified, so the contract states membership and distinctness, not order.
- The pass-throughs `Count`, `CountActive`, `CountDisconnected`, `GetByID`, `GetActiveByID`, `GetAllByClientID`, `GetAll` and `GetUserClients`, and `InitClientService`, only delegate to the repository.
- The supported filter, sort and field tables (server/client_service.go:32-89) are constant data.
- Error message texts are not modelled. Only the error kind is, plus the denied ids of a Forbidden error.
- `Remote.IsLocalSpecified` is not part of this model. It is modelled as "the local port is not empty".
- `IsLimitFilter` and `Operator.Code()` are not part of this model. They are a flag and an operator string on `FilterOption`.
- Text.ToUpper: ASCII letters only; Unicode case mapping is not modelled.
- Sorting.SortStrings: an insertion sort stands for `sort.Strings`. `Sorting.SortedUnique` shows that every correct sort gives the same result.
- Query.AddLimit: it requires every limit filter to have a value. The source indexes `Values[0]` and would panic otherwise.
- server/routes/routes.go is not part of this model: it holds only route constants.
