# gostc control plane: admission cache, traffic ranking, host and node provisioning

This project models four pieces of the gostc-open administration server in Dafny. It proves what each one promises.

- **The admission cache** (`Cache`). An IP allow-list policy per resource code is stored under the key `"admission:" + code`. `SetAdmissionInfo` rebuilds the membership set `WhiteMap` from `WhiteList` and overwrites the entry. `GetAdmissionInfo` reads the entry, or the zero value on a miss. `DelAdmissionInfo` removes it. `ValidWhiteIp` admits every address unless `WhiteEnable` is exactly 1; when it is 1, only members pass. A deleted or missing policy therefore reads back as disabled and admits everything. The runtime cache is a class (`RuntimeCache`) with one map field per kind of entry: admission policies, node limit snapshots, tunnel snapshots and credential lookups.
- **The daily traffic ranking** (`Dashboard.ClientObsDate`). The first loop folds each client row's day counters into a map keyed by client code. The second loop keeps the entries with traffic in both directions. The list is sorted in place with the ranking's comparator, then cut to at most 30 entries. The reference definitions (`Expected`, `Eligible`) state, one code at a time, what the ranking should contain. The method is proved against them: how many entries, which entries, no duplicate codes, sorted, and nobody left out who ranks above a kept entry.
- **Host-tunnel provisioning** (`HostService.Create`). Three input checks run before the transaction. Inside it, the service:
  - reads the account and the node;
  - runs the denylist check, the web-feature check and the node rules;
  - inserts the random domain prefix, which fails on a collision;
  - reads the plan and the client;
  - runs the charging switch, which checks the balance and makes a version-matched debit;
  - inserts the host row and its credentials;
  - publishes the credential lookup and the tunnel snapshot.

  The store is a class (`Repository.Store`) with one map per table. The transaction rolls back by restoring a snapshot. The method's result equals a pure verdict function, and the lemmas about that function give the check order, the exact conditions for success, and the debit and rows committed.
- **Node creation** (`NodeService.Create`). The node row is built from the request, with the rule and tag lists joined by commas. When the insert fails, the answer is "操作失败" and nothing else happens. Otherwise the service refreshes the node's traffic limit, publishes its limit snapshot and arranges its ports.

Some collaborators are not modelled, and each becomes a parameter:

- `Env` holds the address and port validators, the `FuncWeb` setting, the node's prefix check and the rule verification.
- `Sources` holds the day counters and the online flag.
- `Generated` holds randomness and the clock.
- `Faults` holds one store error per write.

Calls into code defined elsewhere in the server (`RefreshNodeObsLimit`, `node_port.Arrange`, `engine.ClientHostConfig`) are not modelled; they are recorded in order in an `Effects.Outbox`.

Two facts about the code that shape the model:

- The host service writes the runtime cache inside the `db.Transaction` closure, before the commit.
- The ranking sorts with `clientObsSortable.Less`, which is defined elsewhere in the server and is not modelled, and keeps at most 30 entries. So the comparator stays abstract: any strict weak order, as `sort.Sort` requires. The model does not assume it ranks by combined bytes.

## Model

| member | source | states |
|---|---|---|
| Cache.DisabledAdmitsAll | server/repository/cache/admission.go:20-22 | any `WhiteEnable` other than exactly 1 admits every address |
| Cache.EnabledAdmitsOnlyMembers | server/repository/cache/admission.go:23-26 | with `WhiteEnable == 1`, an address is admitted if and only if it is in `WhiteMap` |
| Cache.MakeWhiteMap | server/repository/cache/admission.go:30-33 | the set built by the loop holds exactly the elements of the list |
| Cache.RuntimeCache.SetAdmissionInfo | server/repository/cache/admission.go:29-35 | the cache becomes the old cache with key `"admission:"+code` overwritten by the info, whose `WhiteMap` is rebuilt from `WhiteList`; no other field of the cache changes |
| Cache.RuntimeCache.GetAdmissionInfo | server/repository/cache/admission.go:37-40 | returns the entry under `"admission:"+code`, or the zero value when there is none |
| Cache.RuntimeCache.DelAdmissionInfo | server/repository/cache/admission.go:42-44 | the cache becomes the old cache without key `"admission:"+code` |
| Cache.AdmissionKeyInjective | server/repository/cache/admission.go:9 | two codes with the same cache key are the same code |
| Cache.SetThenGet | server/repository/cache/admission.go:29-40 | Get after Set returns the stored info; its gate admits `ip` exactly when it is disabled or `ip` is in `WhiteList` |
| Cache.SetDiscardsCallerWhiteMap | server/repository/cache/admission.go:30-33 | the caller's `WhiteMap` does not affect what is stored |
| Cache.SetIsIdempotent | server/repository/cache/admission.go:34 | setting the same info twice gives the same cache as setting it once |
| Cache.SetLeavesOtherKeys | server/repository/cache/admission.go:34 | Set changes no key other than its own |
| Cache.SetLeavesOtherCodes | server/repository/cache/admission.go:29-40 | after Set, Get for any other code returns what it returned before |
| Cache.DelThenGet | server/repository/cache/admission.go:37-44 | Get after Del returns the zero value, which admits every address |
| Cache.DelLeavesOtherCodes | server/repository/cache/admission.go:37-44 | after Del, Get for any other code returns what it returned before |
| Cache.AllowListExample | server/repository/cache/admission.go:19-35 | an enabled list holding 1.2.3.4 admits 1.2.3.4 and refuses 5.6.7.8 |
| Cache.RuntimeCache.SetNodeInfo | server/service/admin/gost_node/service.create.go:72-77 | the node snapshot map gains or overwrites the entry under the node code; nothing else changes |
| Cache.RuntimeCache.SetTunnelInfo | server/service/normal/gost_client_host/service.create.go:154-163 | the tunnel snapshot map gains or overwrites the entry under the tunnel code; nothing else changes |
| Cache.RuntimeCache.SetGostAuth | server/service/normal/gost_client_host/service.create.go:152 | the credential lookup maps (user, password) to the tunnel code; nothing else changes |
| Dashboard.AccumulateObs | server/service/admin/dashboard/service.client.date.go:23-33 | the map has one entry per client code in the rows, and each entry equals the reference summary: the code, the name on the code's last row, online 1 or 2, and the counters summed over the code's rows |
| Dashboard.SumsAreCountTimesCounter | server/service/admin/dashboard/service.client.date.go:24-32 | a client's bytes are its day counter times the number of rows carrying its code |
| Dashboard.AbsentCodeIsZero | server/service/admin/dashboard/service.client.date.go:26 | a code with no rows sums to zero and has no name |
| Dashboard.FilterExamples | server/service/admin/dashboard/service.client.date.go:37 | 100 bytes in and none out is excluded; one byte each way is included |
| Dashboard.CollectActive | server/service/admin/dashboard/service.client.date.go:35-40 | the list holds exactly the map entries with traffic both ways, each once |
| Dashboard.SortItems | server/service/admin/dashboard/service.client.date.go:41 | the array ends sorted by the comparator and is a permutation of its old content |
| Dashboard.ClientObsDate | server/service/admin/dashboard/service.client.date.go:11-46 | the result has min(30, number eligible) entries: eligible clients with their reference summaries, bytes > 0 both ways, no code twice, sorted by the comparator; an eligible client left out ranks no higher than any kept entry |
| Dashboard.RankingFacts | server/service/admin/dashboard/service.client.date.go:41-45 | the sorted permutation of the active entries, cut to 30, meets each of the ranking's guarantees |
| HostService.PreChecksComeFirst | server/service/normal/gost_client_host/service.create.go:29-40 | a bad address, then a bad port, then the disabled feature are reported, in that order, whatever the tables hold |
| HostService.TransactionCheckOrder | server/service/normal/gost_client_host/service.create.go:43-83 | inside the transaction the first failing check decides the error: account, node, denylisted prefix, web flag, the node rules' own message, then a failed prefix insert ("该域名前缀已被使用"), a plan not on the node ("套餐错误") and a client the caller does not own ("客户端错误") |
| HostService.ClaimCheck | server/service/normal/gost_client_host/service.create.go:43-83 | when the checks up to the client lookup pass, the account, node and plan exist |
| HostService.SucceedsIffAdmissible | server/service/normal/gost_client_host/service.create.go:29-151 | provisioning answers Ok if and only if every condition holds and the store accepts every write |
| HostService.InsufficientBalanceRejected | server/service/normal/gost_client_host/service.create.go:86-106 | a charged plan priced above the balance is refused with "积分不足" |
| HostService.ExactBalanceSuffices | server/service/normal/gost_client_host/service.create.go:86-116 | a balance equal to the price is accepted and spent to zero |
| HostService.SuccessDebitsExactly | server/service/normal/gost_client_host/service.create.go:85-117 | on success, a charged plan takes its price off a balance that covered it and raises the version by one; an uncharged plan leaves every account alone; no other account changes |
| HostService.SuccessCommitsRows | server/service/normal/gost_client_host/service.create.go:64-151 | on success, the fresh prefix is bound to the node, the host row takes its charging terms from the plan, its owners from the request and caller and its expiry from the cycle, and the credentials are bound to (host tunnel, host code); nodes, plans and clients are untouched |
| HostService.CommitKeepsPrefixesUnique | server/service/normal/gost_client_host/service.create.go:64-141 | if every host held a distinct claimed prefix before, the same holds after a successful provisioning |
| HostService.ClaimPhase | server/service/normal/gost_client_host/service.create.go:43-83 | answers the claim verdict; on success returns the account and plan read and has inserted only the domain row |
| HostService.ChargePhase | server/service/normal/gost_client_host/service.create.go:85-117 | answers the charging verdict, computes the expiry, and on success has applied only the charging update to the accounts |
| HostService.InsertAndPublish | server/service/normal/gost_client_host/service.create.go:119-163 | answers the insert verdict; on success has inserted the host and credential rows, published the lookup and snapshot and pushed the host configuration; on an error has published nothing |
| HostService.Transaction | server/service/normal/gost_client_host/service.create.go:42-165 | answers the transaction verdict; on success the tables are the committed tables and the cache and outbox carry the publications |
| HostService.Create | server/service/normal/gost_client_host/service.create.go:27-166 | answers the verdict on the tables before the call; on any error the store, the cache and the outbox are as before; on success the store holds the committed tables, the cache holds the credential lookup and tunnel snapshot, and the host configuration push was made |
| Repository.Store.CreateNode | server/service/admin/gost_node/service.create.go:67-70 | the insert succeeds exactly when the node code is not yet a key of the table (a key the model assumes) and the store reports no error, and then adds only that row |
| Repository.Store.CreateDomain | server/service/normal/gost_client_host/service.create.go:64-69 | the insert succeeds exactly when the prefix is not yet a key of the table, on any node (a key the model assumes), and the store reports no error, and then adds only that row |
| Repository.Store.CreateHost | server/service/normal/gost_client_host/service.create.go:138-141 | the insert succeeds exactly when the host code is not yet a key of the table (a key the model assumes) and the store reports no error, and then adds only that row |
| Repository.Store.CreateAuth | server/service/normal/gost_client_host/service.create.go:148-151 | the insert succeeds exactly when (tunnel type, tunnel code) is not yet a key of the table (a key the model assumes) and the store reports no error, and then adds only that row |
| Repository.Store.UpdateUserVersioned | server/service/normal/gost_client_host/service.create.go:93-102 | only a store error fails the update; otherwise the account changes only if its version matches, and no other table changes |
| Repository.Store.Restore | server/service/normal/gost_client_host/service.create.go:42 | every table is rolled back to the snapshot |
| Repository.FreshVersionDebits | server/service/normal/gost_client_host/service.create.go:93-98 | a debit carrying the version just read takes exactly the price, raises the version by one and touches no other account |
| Repository.StaleVersionIsNoOp | server/service/normal/gost_client_host/service.create.go:93-96 | a debit carrying a stale version changes nothing |
| Repository.CompetingDebitsApplyOnce | server/service/normal/gost_client_host/service.create.go:93-102 | of two debits that read the same version, the second changes nothing once the first has applied |
| Repository.SequentialDebitsAddUp | server/service/normal/gost_client_host/service.create.go:93-98 | two debits that each reread the account take both prices and raise the version by two |
| NodeService.BuildNodeCopiesRequest | server/service/admin/gost_node/service.create.go:42-66 | flags, addresses, domain fields, ports, index and limits are copied from the request |
| NodeService.EmptyListsStoreEmptyStrings | server/service/admin/gost_node/service.create.go:60-61 | empty rule and tag lists are stored as empty strings |
| NodeService.StoredListsSplitBack | server/service/admin/gost_node/service.create.go:60-61 | non-empty rule and tag lists without commas are recovered by splitting the stored columns at commas |
| NodeService.PublishedLimitsMatchStored | server/service/admin/gost_node/service.create.go:72-77 | the published snapshot carries the stored node's code and limits, which are the request's |
| NodeService.Create | server/service/admin/gost_node/service.create.go:40-80 | the insert decides the answer: "操作失败" with store, cache and outbox unchanged, or Ok with the built node inserted, its snapshot published and the limit refresh then the port arrangement recorded |
| Common.SplitJoin | server/service/admin/gost_node/service.create.go:60-61 | splitting the comma join of a non-empty list without commas gives the list back |
| Common.JoinOfEmpty | server/service/admin/gost_node/service.create.go:60-61 | the empty list and the list of one empty string join to the same empty string |

## Left out

- Serialisation and the cache library: go-cache's `SetStruct`/`GetStruct` and the no-expiration policy are replaced by maps that hold values as they are.
- The key formats used by `SetGostAuth`, `SetTunnelInfo` and `SetNodeInfo` live in cache files that are not part of this model. The model keeps one map per kind of entry instead of one string-keyed store.
- `RefreshNodeObsLimit`, `node_port.Arrange` and `engine.ClientHostConfig` are recorded as calls; what they do is not modelled.
- `node_rule.VerifyAll`, `GostNode.CheckDomainPrefix`, `GetRules`, `ValidateLocalIP`, `ValidatePort`, `GetSystemConfigGost`, `GetClientObs` and `GetClientOnline` are parameters. Nothing is assumed about their answers beyond what the service does with them.
- Date parsing in `ClientObsDate`, its fall-back to the current day, the time zone and the `DateOnly` format are left out; the day arrives as a string.
- The random prefix, the random credentials, the store-assigned host code, the node UUID and the node code are parameters. The two calls to `time.Now` in the host service are one `now`.
- Decimal balances and prices are unbounded integers. Go's `int64` overflow is not modelled: not on `Unix()` and `Cycle * 24h` in the host service, and not on the ranking's `+=` of the byte counters (`SumIn`, `SumOut` are unbounded).
- Concurrency is not modelled. Because the affected-row count of the version-matched debit is discarded, what happens to a debit that loses a race to a concurrent request depends on the store's isolation level and locking. If its UPDATE re-reads the committed version, it matches no row, and the request succeeds without being charged. If the store instead aborts the losing transaction or reports a lock error, the answer is "操作失败" or the commit fails. `Repository.CompetingDebitsApplyOnce` states the single-call effect; interleaved transactions are not expressible in this sequential model.
- Unique keys are assumed, not read from a schema: the schema is not part of this model. The store refuses an insert whose key is taken: the node code, the domain prefix alone (so a prefix claimed on a different node is refused too), the host code, and (tunnel type, tunnel code) for credentials. `HostService.CommitKeepsPrefixesUnique` relies on the prefix key. The transaction's reads of the account, node, plan and client (lines 43, 49, 70 and 77 of the host service) discard their error. A read failure there answers "用户错误", "节点错误", "套餐错误" or "客户端错误" even when the row exists. `Faults` models write errors only, so these read failures are not modelled.
- A failing commit is not modelled. The source writes the runtime cache inside the transaction closure, before the commit. A commit failure would therefore leave published cache entries for rows that were rolled back.
- The numeric values of the charging-type and tunnel-type constants live in model files that are not part of this model. They are the enumerations `CycleDay | OnlyOnce | Other` and `HostTunnel | …`.
- The comparator `clientObsSortable.Less` is defined elsewhere in the server and is not modelled. The ranking is proved for any strict weak order, so "descending by combined bytes" is not proved. `sort.Sort` is not stable, so which of two equivalent entries comes first is not stated.
- `Dashboard.ClientObsDate`: the ranking states the result's contents and order relative to the comparator. It does not say which of several equivalent entries `sort.Sort` keeps at the cut.
- `NodeService.Create`: the contract records the limit refresh and the port arrangement in order, and the new cache snapshot. It does not state that `SetNodeInfo` happens between the two calls.
- Request binding (`binding:"required"`), JWT claims (the caller's code is a parameter), logging and the ORM's query builder are left out.
- `server/service/normal/gost_client_forward/service.matcher.go` is left out: its matcher update is commented out, leaving only a lookup, a save of an unchanged row and a configuration push.
