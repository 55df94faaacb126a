# A verified model of the Bline-X mesh

Bline-X is a WireGuard mesh network. A management server keeps peers, groups, rules and
setup keys and pushes them to agents. A signal server relays messages between agents. Each
agent reconciles its links, routes, DNS records and packet filters with what it is sent.

This project models the parts of the three programs whose correctness is not visible from
one function, and proves what they promise over every input and every run. State that the
source changes in place is a class here; each of its methods is proved against a
specification over the old state, and the theorems are about those specifications. Concurrent code is a state
machine whose runs are arbitrary sequences of steps; a step that is not enabled changes
nothing.

| file | what it models |
|---|---|
| `Domain.dfy` | records shared by the modules |
| `SyncPush.dfy` | the push of peers and rules to subscribed agents |
| `Policy.dfy` | from stored rules and groups to the netstack router's verdict |
| `Enforcers.dfy` | the byte-level packet filter and the iptables chain |
| `Conntrack.dfy` | flow tracking and the filtered Windows tunnel |
| `SignalRouter.dfy` | the signal server's routing and held messages |
| `Probe.dfy` | promotion from relay to a direct path |
| `RateLimit.dfy` | the login token bucket |
| `Ipam.dfy` | the address allocator |
| `Enrollment.dfy` | login and the administrative edits of peers |
| `Agent.dfy` | the agent's links, relay endpoints and DNS records |
| `OsRoutes.dfy` | the agent's incremental operating-system routes |
| `SplitTunnel.dfy` | exit-node routing |
| `DnsTakeover.dfy` | the Windows DNS takeover and its backup file |
| `Blocklist.dfy` | the blocked-domain feed, its version and its matching |

Where the code and its own comments disagree, the code is followed:

- `Release` in the allocator is described as returning an address to the pool. It frees the
  lease, but the counter never goes back, so a released address is not handed out again
  before a restart. `Ipam.PoolCapacity` and `Ipam.NeverIssuedTwice` state this.
- A repeated login is described as preserving what operators manage. It resets the chosen
  exit node, and clears the country until it is looked up again. `Enrollment.Reenrollment`
  states exactly what is kept, replaced and lost.
- `updatePeer` assigns the groups of the stored record before it checks the device name, so
  with the in-memory store a refused request can change groups.
  `Enrollment.RefusedEditUnchangedIff` gives the exact condition and
  `Enrollment.RefusedEditChangesGroups` a family of runs in which it happens.
- `appliedRoutes` is described as what is installed. A list that becomes empty is not
  recorded, and a network that moves between gateways is removed after it was added if the
  old gateway is visited later. `OsRoutes.RoutesFollowPeers` gives the exact condition under
  which the installed routes stay right; `OsRoutes.EmptyThenReadvertise` and
  `OsRoutes.MovedNetworkLost` are families of runs where they do not.
- A failed lookup of an adapter is described as different from a vanished adapter. Both give
  the same answer, so a shutdown can remove the backup of an adapter that is still changed.
  `DnsTakeover.OriginalsSafeIff` gives the exact condition over every run and
  `DnsTakeover.FailedLookupLosesOriginals` a family of runs in which it happens.
- A reconnecting agent whose older stream ends later loses its registration in the sync
  server. `SyncPush.WokenIffSubscribed` and `SyncPush.OverlapLosesUpdate` state this.

## Model

| member | source | states |
|---|---|---|
| `SyncPush.NoLostUpdate` | management/internal/grpcserver/server.go:196-241 | in every interleaving, once no writer stands between save and notify, a registered stream that waits on an empty channel was last sent the current value of every entry, except entries whose last change came from a write that notifies nobody or another account |
| `SyncPush.NoLostNotification` | management/internal/grpcserver/server.go:196-241 | in every interleaving, whatever silent writes happen, no write that notifies its account came after such a stream began to read what it was sent |
| `SyncPush.SettledIsCurrent` | management/internal/grpcserver/server.go:196-241 | in every interleaving of writers that notify each account whose view they change, such a stream was last sent exactly the current peers and rules |
| `SyncPush.UnsentFieldsNotMissed` | management/internal/grpcserver/server.go:466-473 | a silent save of fields no message carries, such as the time a peer was seen, counts as missed by no stream |
| `SyncPush.RunKeepsInv` | management/internal/grpcserver/server.go:182-241 | the invariant behind it, entry by entry: a registered stream has read an entry as it is, or has a token, is about to read, or is still to be reached by a writer; and it is never owed an update with no wake-up on its way |
| `SyncPush.WithoutOverlapAllServed` | management/internal/grpcserver/server.go:196-204 | while streams of one key never overlap, every open registered stream is the subscribed one |
| `SyncPush.WokenIffSubscribed` | management/internal/grpcserver/server.go:451-463 | after a complete notifying write, from any reachable state, a stream of the account holds a token if and only if it held one or is the registered stream of its key, and what it was sent is unchanged |
| `SyncPush.OverlapLosesUpdate` | management/internal/grpcserver/server.go:487-497 | a reconnect that overlaps the old stream can leave the open stream waiting on stale data for good, owed an update |
| `SyncPush.Subscribers.RegisterSub` | management/internal/grpcserver/server.go:487-491 | the newest stream of a key replaces the older one, with an empty channel |
| `SyncPush.Subscribers.UnregisterSub` | management/internal/grpcserver/server.go:493-497 | the entry of the key goes, whichever stream it names; channels stay |
| `SyncPush.Subscribers.NotifyAll` | management/internal/grpcserver/server.go:451-463 | afterwards the full channels are the old ones and those of the account's registered streams |
| `SyncPush.RegisterIsEntered` | management/internal/grpcserver/server.go:196-197 | a registration step of the state machine is exactly `RegisterSub` on its table |
| `SyncPush.CloseIsDropped` | management/internal/grpcserver/server.go:205-206 | the end of a registered stream is exactly `UnregisterSub` on its table |
| `SyncPush.WalkIsNotified` | management/internal/grpcserver/server.go:451-463 | taking the lock, reaching every key in any order and letting go is exactly `NotifyAll` on the table, and changes neither the store nor another writer |
| `Policy.CompilerCorrect` | management/internal/grpcserver/server.go:298-351 | sort, expand and first match allow a packet exactly when the governing enabled rules of smallest priority allow it, and deny when none governs |
| `Policy.OrderIrrelevantIffTiesAgree` | management/internal/store/memory/store.go:226-241 | the verdict is the same for every order the rule map yields if and only if governing rules of equal smallest priority agree |
| `Policy.CompileMeans` | management/internal/grpcserver/server.go:335-351 | the compiled list decides as the first governing rule of the uncompiled one, for every list and packet |
| `Policy.ExpandMeans` | management/internal/grpcserver/server.go:403-439 | expansion of a group rule matches exactly the packets the rule governs and keeps its action |
| `Policy.SideMatches` | management/internal/grpcserver/server.go:413-427 | a side's expansion matches an address exactly when the side means it, or its group has a member without an address |
| `Policy.EmptyAddressWidens` | management/internal/grpcserver/server.go:403-439 | why addresses must be nonempty: one member without an address lets every source through |
| `Policy.FirstOfSort` | management/internal/store/memory/store.go:236-240 | the first governing rule after the stable sort is the earliest among those of smallest priority |
| `Policy.SortSorts` | management/internal/store/memory/store.go:236-240 | the result is in priority order |
| `Policy.SortKeeps` | management/internal/store/memory/store.go:236-240 | the result is a permutation of the input |
| `Policy.GetRulesByAccount` | management/internal/store/memory/store.go:226-241 | each of the account's stored rules once, in priority order, from some order of the map |
| `Policy.GroupIndex` | management/internal/grpcserver/server.go:298-304 | the index of each group is its members' addresses, in peer order |
| `Policy.ExpandGroupRule` | management/internal/grpcserver/server.go:403-439 | the loops produce the specified expansion, including the empty group and the rule without groups |
| `Policy.CrossProduct` | management/internal/grpcserver/server.go:429-438 | every source with every destination, sources outermost |
| `Policy.BuildRules` | management/internal/grpcserver/server.go:335-351 | the rules of the response are the compiled list |
| `Policy.VerdictByFirstMatch` | client/internal/wgmgr/nsrouter.go:207-232 | a packet is allowed if and only if the first matching enabled rule says allow |
| `Policy.RoutingNet.SetACLRules` | client/internal/wgmgr/nsrouter.go:194-198 | the policy is replaced as a whole |
| `Policy.RoutingNet.AclAllows` | client/internal/wgmgr/nsrouter.go:207-245 | the scan computes the verdict of the installed rules |
| `Enforcers.EnforcersAgree` | client/internal/wgmgr/aclfilter.go:50-108 | on every complete datagram and validated rule list the netstack check, the byte filter without local addresses and the iptables chain give one verdict |
| `Enforcers.PolicyReachesTheWire` | client/internal/acl/acl_linux.go:46-88 | end to end: each of the three lets a datagram through exactly when the stored governing rules of smallest priority allow it |
| `Enforcers.FilterDecides` | client/internal/wgmgr/aclfilter.go:23-108 | on every datagram with a whole header, any protocol and length, the filter applies the rules to packets for this host, to all packets when local addresses are unknown, and passes transit |
| `Enforcers.DecodeCovers` | client/internal/wgmgr/aclfilter.go:50-74 | every packet with a whole IPv4 header is the encoding of a datagram |
| `Enforcers.FilterDecidesBytes` | client/internal/wgmgr/aclfilter.go:50-108 | on all bytes: what is not a whole IPv4 header passes, transit passes, and the rules decide the rest by what the header says |
| `Enforcers.ChainAgreesIff` | client/internal/acl/acl_linux.go:98-122 | the chain agrees with the netstack verdict if and only if the first matching rule's action is allow or deny |
| `Enforcers.BuildIPTablesArgs` | client/internal/acl/acl_linux.go:98-122 | what iptables reads back from the arguments is the rule, and a refusal exactly for rules it cannot express |
| `Enforcers.AddressArgs` | client/internal/acl/acl_linux.go:99-106 | the address options read back as the rule's addresses |
| `Enforcers.ServiceArgs` | client/internal/acl/acl_linux.go:108-114 | the protocol and port options read back as the rule's service |
| `Enforcers.IPTables.ApplyRules` | client/internal/acl/acl_linux.go:46-88 | afterwards the chain is the reply accept, the expressible enabled rules in order and the final drop, and nothing older |
| `Enforcers.InstalledDecides` | client/internal/acl/acl_linux.go:72-80 | the installed entries catch a packet exactly when a rule matches it, with that rule's action |
| `Conntrack.AdmitsIffSolicited` | client/internal/wgmgr/conntrack.go:100-132 | over every run with a nondecreasing clock, an inbound packet is admitted exactly when its reversed flow was seen outbound at most two minutes ago and since the last overflow clear |
| `Conntrack.TableBounded` | client/internal/wgmgr/conntrack.go:100-114 | the table never exceeds 8192 entries |
| `Conntrack.ParseOfEncode` | client/internal/wgmgr/conntrack.go:30-88 | the parsed flow key of an encoded datagram is its addresses, protocol and ports or echo identifier |
| `Conntrack.ReplyHasReversedKey` | client/internal/wgmgr/conntrack.go:22-28 | the key of every reply to a packet is that packet's key reversed |
| `Conntrack.Table.ObserveOutbound` | client/internal/wgmgr/conntrack.go:100-114 | the new table, including the clear on overflow |
| `Conntrack.Table.AllowInbound` | client/internal/wgmgr/conntrack.go:116-132 | the answer and the table after the lazy deletion |
| `Conntrack.DeliveredIff` | client/internal/wgmgr/aclfilter_windows.go:98-134 | after every run, what a batch delivers is the batch without the packets that neither the policy allows nor the history solicited, in order and with repetitions |
| `Conntrack.FilterTun.Read` | client/internal/wgmgr/aclfilter_windows.go:54-79 | outgoing packets are remembered, each at its own time, exactly when a policy is set |
| `Conntrack.FilterTun.Write` | client/internal/wgmgr/aclfilter_windows.go:98-134 | the delivered packets and the flow table, each packet looked up at its own time; everything passes before a policy is set |
| `Conntrack.FilterTun.SetRules` | client/internal/wgmgr/aclfilter_windows.go:81-89 | a policy, even an empty one, is in force from here on |
| `Conntrack.FilterTun.ClearRules` | client/internal/wgmgr/aclfilter_windows.go:91-96 | back to no policy |
| `SignalRouter.Conservation` | signal/internal/server/server.go:122-169 | over every interleaving each addressed message that is not data is in exactly one place: in a handler's hand, handed to a stream, held, in a flush batch, evicted, expired, or abandoned after a failed flush |
| `SignalRouter.HeldIsSignaling` | signal/internal/server/server.go:173-214 | what is held or flushed is signaling for that very peer, each message once; data is never held |
| `SignalRouter.HeldWindow` | signal/internal/server/server.go:194-214 | the queue of an absent peer is always the last at most 32 arrivals since its reset, in order, with gaps of at most 15 s |
| `SignalRouter.FlushedIsRecent` | signal/internal/server/server.go:216-227 | whatever a reconnecting stream is given, message by message, is at most 480 s old and is the tail of what arrived |
| `SignalRouter.RegistryHolds` | signal/internal/server/server.go:82-143 | the stream mapped to a key registered last for it and is there exactly while open; with authentication its verified key is its own, and every routed message carries its origin's key |
| `SignalRouter.Server.Register` | signal/internal/server/server.go:125-127 | the stream is mapped and the pending queue handed over at once |
| `SignalRouter.Server.Deregister` | signal/internal/server/server.go:91-101 | a stream that ends removes only its own registration |
| `SignalRouter.Server.TakePending` | signal/internal/server/server.go:216-227 | the queue is cleared, and returned unless it is too old |
| `SignalRouter.Server.ExpirePending` | signal/internal/server/server.go:229-235 | exactly the queues idle for longer than the limit go |
| `SignalRouter.Server.HandleAbsentTarget` | signal/internal/server/server.go:173-214 | signaling is held with the oldest evicted on overflow; data is dropped and reported at most once per 30 s and target |
| `SignalRouter.HandleAbsentIsAppend` | signal/internal/server/server.go:194-214 | holding is expiry, then eviction, then append |
| `Probe.PromotesIff` | client/internal/peerlink/link.go:174-214 | a tick promotes exactly when the path is on relay, the last three ticks each brought a new fresh pong, and every backoff deadline is past |
| `Probe.DemotesIff` | client/internal/peerlink/link.go:174-214 | a tick demotes exactly when the path is direct and the tick brought no fresh pong; the wait lies between the two limits |
| `Probe.PromotionsApart` | client/internal/peerlink/link.go:174-214 | any two promotions are more than 15 s apart |
| `Probe.StallWaits` | client/internal/peerlink/link.go:187-204 | the j-th successive early stall waits min(15 * 2^(j-1), 300) s |
| `Probe.ProbeState.ObserveTick` | client/internal/peerlink/link.go:174-214 | the method computes the specified state and decision and never both promotes and demotes |
| `RateLimit.TokenBucketBound` | management/internal/grpcserver/ratelimit.go:34-69 | in every run one key gets at most 5 + (t - s) / 12 successes in any window [s, t] |
| `RateLimit.EvictionInvisible` | management/internal/grpcserver/ratelimit.go:40-48 | the limiter with idle eviction answers exactly as one that never evicts |
| `RateLimit.RateLimiter.Evict` | management/internal/grpcserver/ratelimit.go:40-48 | exactly the idle buckets go |
| `RateLimit.RateLimiter.AllowRequest` | management/internal/grpcserver/ratelimit.go:34-69 | the answer and the new buckets |
| `Ipam.PoolCapacity` | management/internal/grpcserver/ipam.go:34-49 | from an empty /n block, n at most 30, exactly 2^(32-n) - 2 requests by keys without an address succeed, over all runs with releases |
| `Ipam.NeverIssuedTwice` | management/internal/grpcserver/ipam.go:34-56 | no address is issued to two keys in one process, even after a release |
| `Ipam.LeaseKept` | management/internal/grpcserver/ipam.go:37-39 | a key that is not released keeps its address over every run |
| `Ipam.RestartKeepsAddresses` | management/internal/grpcserver/ipam.go:61-82 | after preloading stored peers with distinct in-pool addresses each gets its old address, and no other key ever does; peers without an address are allowed |
| `Ipam.RunSound` | management/internal/grpcserver/ipam.go:34-56 | over every run the counter advances once per fresh address, leases are distinct and below it |
| `Ipam.PreloadRestores` | management/internal/grpcserver/ipam.go:61-82 | the leases after preloading are exactly the saved addresses, all below the counter; peers without an address leave no lease |
| `Ipam.IPAM.constructor` | management/internal/grpcserver/ipam.go:20-31 | an empty pool whose counter skips the network address |
| `Ipam.IPAM.AllocateKey` | management/internal/grpcserver/ipam.go:34-49 | the address and the new pool: the existing lease, the next address, or an error at the broadcast address |
| `Ipam.IPAM.ReleaseKey` | management/internal/grpcserver/ipam.go:52-56 | the lease goes, the counter stays |
| `Ipam.IPAM.PreloadPeers` | management/internal/grpcserver/ipam.go:61-82 | the loop leaves the specified pool; peers without an address are skipped |
| `Enrollment.StoredPeers` | management/internal/grpcserver/server.go:78-161 | in every reachable store a peer's address is its live lease, addresses are distinct, and every peer is in Default |
| `Enrollment.AccountConstant` | management/internal/grpcserver/server.go:133-139 | as long as a key stays enrolled its account does not change |
| `Enrollment.EphemeralOnce` | management/internal/grpcserver/server.go:78-84 | an ephemeral setup key, deleted since or not, completes at most one login, and a stored usage count is the number of logins |
| `Enrollment.Reenrollment` | management/internal/grpcserver/server.go:133-153 | a repeated login keeps identifier, address, groups, routes, names and enrollment time, replaces what the device reports and when it was seen, loses exit node and country, and leaves other peers alone |
| `Enrollment.RefusedEditUnchangedIff` | management/internal/httpserver/server.go:137-185 | a refused edit leaves the store unchanged exactly if it is refused before the groups are assigned or assigns the groups already there |
| `Enrollment.RefusedEditChangesGroups` | management/internal/httpserver/server.go:163-171 | after any first enrollment, an edit with valid new groups and an empty name is refused and its groups are stored |
| `Enrollment.RunKeepsPeers` | management/internal/httpserver/server.go:287-309 | the invariant on peers and leases over every run of login, edit, report, country, route, exit-node, delete and setup-key steps |
| `Enrollment.RunKeepsKeys` | management/internal/store/memory/store.go:118-140 | the invariant on setup keys and their usage over every run |
| `Enrollment.Management.LoginPeer` | management/internal/grpcserver/server.go:74-161 | the reply and the new store in every branch, errors included |
| `Enrollment.Management.UpdatePeer` | management/internal/httpserver/server.go:137-185 | the reply and the new store in every branch, the early assignment of groups included |
| `Enrollment.Management.Checked` | management/internal/httpserver/server.go:140-148 | missing, foreign or accessible |
| `Enrollment.Management.SetPeerRoutes` | management/internal/httpserver/server.go:375-430 | the routes of an accessible peer are replaced exactly if each is a default route or a network that shares no address with the mesh |
| `Enrollment.ValidateRoutes` | management/internal/httpserver/server.go:384-403 | the test of two addresses per route accepts exactly the lists whose networks are default routes or share no address with the mesh block |
| `Enrollment.Management.SetPeerExitNode` | management/internal/httpserver/server.go:314-373 | the choice is stored exactly if it is empty or another peer of the account that offers the default route |
| `Enrollment.Management.DeletePeer` | management/internal/httpserver/server.go:287-309 | the record and its lease go together |
| `Enrollment.Management.IncrementSetupKeyUsage` | management/internal/store/memory/store.go:130-140 | the key with the identifier counts one more use and no other changes; without such a key nothing changes |
| `Enrollment.JoinGroups` | management/internal/grpcserver/server.go:107-112 | Default first, then the automatic groups without it |
| `Enrollment.EnrollGroups` | management/internal/grpcserver/server.go:107-112 | the groups are exactly Default and the automatic ones |
| `Enrollment.EnsureDefaultGroup` | management/internal/httpserver/server.go:187-194 | the result is exactly Default and what was asked for |
| `Enrollment.ResolveExitNode` | management/internal/grpcserver/server.go:378-401 | a nonempty answer is the agent's choice, another listed peer that advertises the default route; an empty one means there is no such choice |
| `Enrollment.AcceptedChoiceResolves` | management/internal/httpserver/server.go:314-373 | a choice the handler accepts resolves to itself on every listing of the account |
| `Agent.LinksFollowPeers` | client/internal/engine/engine.go:495-521 | after any syncs a link, an endpoint and a relay connection exist exactly for the last list's peers other than the agent |
| `Agent.EndpointsDistinct` | client/internal/relay/conn.go:32-41 | while at most 65,536 connections were ever made no two peers share an endpoint |
| `Agent.DnsFollowsPeers` | client/internal/engine/engine.go:607-683 | in every run the records are exactly the peers' names and addresses after each sync if and only if every list and the one before it are orderly: names unique, every record survives, no old name lingers |
| `Agent.SyncExactIff` | client/internal/engine/engine.go:637-645 | the same for one sync from exact records, names passing between keys included |
| `Agent.SyncAt` | client/internal/dns/resolver.go:73-87 | what one sync makes of one name: gone with a peer that left, else decided by the last visit that touches it, else unchanged |
| `Agent.ResolvesIff` | client/internal/engine/engine.go:609-668 | a listed peer resolves after a sync if and only if no peer that left had its name, nobody visited later is renamed away from it, and its own change is detected |
| `Agent.LeftoverLingers` | client/internal/engine/engine.go:637-645 | a record nobody uses is the old name of a peer renamed without a change the diff compares |
| `Agent.NoClashIsOrderly` | client/internal/peer/manager.go:39-46 | lists in which no name is used by two keys and every change of name is detected are orderly |
| `Agent.HandoverLosesName` | client/internal/engine/engine.go:657-668 | a newcomer that takes over a leaving peer's name ends without a record |
| `Agent.RunReconciles` | client/internal/engine/engine.go:607-683 | the invariant on links, endpoints and connections over every run |
| `Agent.Manager.Diff` | client/internal/peer/manager.go:30-65 | the added, updated and removed peers and the committed set |
| `Agent.AllowedIPsEqual` | client/internal/peer/manager.go:67-77 | true exactly for equal lists |
| `Agent.ChangedMembers` | client/internal/peer/manager.go:39-46 | added are the listed peers with an unknown key, updated those with a known key and a compared difference |
| `Agent.Engine.Ensure` | client/internal/engine/engine.go:495-521 | nothing if endpoint and link exist, else a new connection, endpoint and link |
| `Agent.Engine.ApplyAdded` | client/internal/engine/engine.go:609-625 | the plumbing and records after the added peers |
| `Agent.Engine.ApplyUpdated` | client/internal/engine/engine.go:627-655 | the plumbing and records after the updated peers, old names dropped first |
| `Agent.Engine.ApplyRemoved` | client/internal/engine/engine.go:657-683 | the plumbing and records without the removed peers |
| `Agent.Engine.ApplySync` | client/internal/engine/engine.go:607-683 | the whole new state of the agent |
| `OsRoutes.RoutesFollowPeers` | client/internal/engine/engine.go:789-810 | installed routes are the advertised ones after every sync of a run if and only if every wanted network survives every message: no peer that left had it, and a visit installs it with none taking it away later, or it was wanted before and none takes it away |
| `OsRoutes.OwnedRoutesFollowPeers` | client/internal/engine/engine.go:789-810 | when each network has one gateway for good this holds if and only if no peer that advertised nothing advertises again a network from the last list it had; any number of peers may offer a default route |
| `OsRoutes.MovedNetworkLost` | client/internal/engine/engine.go:627-637 | a network that passes to a gateway listed before the old one is not installed, because the old gateway's visit comes later |
| `OsRoutes.RoutesExactUnlessEmptied` | client/internal/engine/engine.go:616-667 | when each network has one gateway, in runs where no update empties a nonempty list, installed routes are the advertised ones after every sync |
| `OsRoutes.EmptyThenReadvertise` | client/internal/engine/engine.go:807-809 | advertise, withdraw as the last network, advertise again, and the route is missing |
| `OsRoutes.MessageKeepsRoutes` | client/internal/engine/engine.go:789-810 | the exact condition for one message that meets an exact table, networks passing between gateways included |
| `OsRoutes.AppliedIsLastList` | client/internal/engine/engine.go:807-809 | what the agent has recorded for a peer is the last nonempty list it advertised since it joined, as the messages alone tell |
| `OsRoutes.TwoExitNodesServed` | management/internal/grpcserver/server.go:365-372 | two peers that both offer a default route meet the hypothesis of the theorems |
| `OsRoutes.InstalledIff` | client/internal/engine/engine.go:789-810 | after a message that meets an exact table a network is installed exactly if it is wanted and survives |
| `OsRoutes.SyncTable` | client/internal/engine/engine.go:616-667 | what a sync makes of one network: taken away with a peer that left, else decided by the last visit that changes it, else as it was |
| `OsRoutes.ServerMessageBuilt` | management/internal/grpcserver/server.go:306-333 | the message the server makes of stored peers lists each key once with its own networks, once the agent has regrouped its routes |
| `OsRoutes.RegroupInverts` | management/internal/grpcserver/server.go:324-332 | regrouping a message's routes by gateway gives back each peer's own list |
| `OsRoutes.RoutesByGateway` | client/internal/engine/engine.go:530-535 | each gateway's enabled networks in order, no empty entry |
| `OsRoutes.Without` | client/internal/engine/engine.go:816-842 | exactly the elements of the one list that are not in the other |
| `OsRoutes.Difference` | client/internal/engine/engine.go:816-842 | the loops compute that difference, in order |
| `OsRoutes.Router.ApplyOSRoutes` | client/internal/engine/engine.go:789-810 | the new table and record; default routes are skipped, an empty list is not recorded |
| `OsRoutes.Router.ApplyAdded` | client/internal/engine/engine.go:609-618 | added peers start from no routes |
| `OsRoutes.Router.ApplyUpdated` | client/internal/engine/engine.go:627-637 | updated peers start from the recorded routes |
| `OsRoutes.Router.ApplyRemoved` | client/internal/engine/engine.go:657-667 | removed peers lose every recorded route and the record |
| `OsRoutes.Router.ApplySync` | client/internal/engine/engine.go:523-667 | the whole new route state |
| `SplitTunnel.ActivatedRouting` | client/internal/engine/engine.go:709-745 | after activation pinned servers use the old gateway; in each half whose route could be added, destinations on the default route or a /1 route use the mesh; all others are unchanged (longest match, section 5.2.4.3 of RFC 1812) |
| `SplitTunnel.OnlyDefaultTrafficMoves` | client/internal/engine/engine.go:736-742 | without earlier /1 routes exactly the unpinned default-route traffic moves |
| `SplitTunnel.DeactivateRestoresIff` | client/internal/engine/engine.go:748-760 | deactivation restores the table if and only if it had none of the entries that are taken away: pinned /32 entries, added /1 entries and /1 entries into the mesh |
| `SplitTunnel.BestIsLongest` | client/internal/engine/engine.go:736-737 | the lookup finds the longest entry that covers the destination |
| `SplitTunnel.RoundTripAt` | client/internal/engine/engine.go:748-760 | one entry after activating and deactivating |
| `SplitTunnel.Pins` | client/internal/engine/engine.go:716-734 | exactly the servers that resolved, are not loopback and could be pinned |
| `SplitTunnel.Tunnel.ActivateExitNode` | client/internal/engine/engine.go:709-745 | the new table and the remembered pins, for every outcome of the /1 calls, or no change without a default gateway |
| `SplitTunnel.Tunnel.DeactivateExitNode` | client/internal/engine/engine.go:748-760 | the table without the added routes, or no change when not active |
| `DnsTakeover.OriginalsNeverLost` | client/internal/dnsconfig/dnsconfig_windows.go:54-123 | over every run of recover, apply and revert with failing adapters and crashes anywhere, if the lookups of the reverts succeed, a backup holds the original servers, and without one every adapter does |
| `DnsTakeover.OriginalsSafeIff` | client/internal/dnsconfig/dnsconfig_windows.go:152-231 | over every run this holds at every moment if and only if no shutdown removes the backup while an adapter it did not find by name is still changed |
| `DnsTakeover.FailedLookupLosesOriginals` | client/internal/dnsconfig/dnsconfig_windows.go:194-220 | after a takeover, a shutdown whose lookup of one adapter fails leaves it on 127.0.0.1 with no backup |
| `DnsTakeover.CleanRunsRestore` | client/internal/dnsconfig/dnsconfig_windows.go:135-182 | from any reachable state a revert or recovery that fails nowhere restores every adapter |
| `DnsTakeover.TakeoverKeepsOriginals` | client/internal/dnsconfig/dnsconfig_windows.go:69-116 | from any reachable state a takeover that fails nowhere routes every adapter through the agent and keeps the originals in the backup |
| `DnsTakeover.Adapters.Apply` | client/internal/dnsconfig/dnsconfig_windows.go:54-123 | the adapters, the backup and the relay in every branch |
| `DnsTakeover.Adapters.RestoreBackup` | client/internal/dnsconfig/dnsconfig_windows.go:210-231 | every adapter found and settable has its saved servers, one that vanished is passed over; true exactly if none found failed |
| `DnsTakeover.Adapters.RecoverStale` | client/internal/dnsconfig/dnsconfig_windows.go:135-149 | restores and keeps the backup |
| `DnsTakeover.Adapters.Revert` | client/internal/dnsconfig/dnsconfig_windows.go:152-182 | restores, and removes the backup only if all succeeded |
| `Blocklist.KnownVersionIdentifies` | client/internal/engine/engine.go:343-359 | in every run a nonempty known version identifies what the agent has installed |
| `Blocklist.PollAgrees` | management/internal/grpcserver/server.go:280-291 | in every run a poll of a loaded server leaves the agent with the server's normalised set |
| `Blocklist.FeedReachesAgent` | management/internal/blocklist/blocklist.go:67-84 | a feed fetched and then polled reaches the agent whole |
| `Blocklist.VersionIdentifiesSet` | management/internal/blocklist/blocklist.go:135-144 | versions are equal if and only if the sets are, in whatever order they are listed |
| `Blocklist.EncodeInjective` | management/internal/blocklist/blocklist.go:139-142 | the newline-terminated text determines the list |
| `Blocklist.SortedUnique` | management/internal/blocklist/blocklist.go:136-137 | a set has one sorted listing |
| `Blocklist.SortKeeps` | management/internal/blocklist/blocklist.go:136-137 | sorting orders, keeps the members and adds no repetition |
| `Blocklist.ParseClean` | management/internal/blocklist/blocklist.go:109-124 | every parsed domain is nonempty and on one line |
| `Blocklist.ParseFeed` | management/internal/blocklist/blocklist.go:105-133 | the result lists the parsed set, each domain once |
| `Blocklist.HashDomains` | management/internal/blocklist/blocklist.go:135-144 | the version is the hash of the sorted newline-terminated text |
| `Blocklist.Store.Refresh` | management/internal/blocklist/blocklist.go:67-84 | a failed fetch changes nothing, a good one installs the parsed set with its version |
| `Blocklist.Resolver.SetBlocklist` | client/internal/dns/resolver.go:41-55 | the blocked set is the normalised list, nothing of the old one |
| `Blocklist.Resolver.IsBlocked` | client/internal/dns/resolver.go:57-70 | true exactly for listed names and names below one at a label boundary |
| `Blocklist.TriedIsSuffix` | client/internal/dns/resolver.go:63-68 | every name tried is a suffix that starts at a label |
| `Blocklist.SuffixIsTried` | client/internal/dns/resolver.go:63-68 | every suffix that starts at a label is tried |

## Left out

- The dashboard, generated code and message definitions, TLS, tokens and pinning, configuration, the control socket and service installation: I/O or user interface with little to prove.
- ICE, the relay server and the WireGuard, gVisor and pion calls: their behaviour lives in libraries; `Link.Write`, `SetICEConn` and the read loops with them.
- The SQL store: the model follows the in-memory store, whose `GetPeer` hands out the stored record itself.
- Address and CIDR text: addresses are numbers and rule fields are values of `Field`; parsing by the Go library is not modelled, and the parser is a parameter of the route validation.
- IPv6, IP fragments and truncated packets beyond the filter's own length checks.
- Floating-point rounding in the token bucket: tokens are reals.
- Clocks, identifiers, DNS labels drawn for host names and the hash function are parameters; the hash is taken to be free of collisions.
- Whitespace and letter case are those of ASCII text; line splitting and the scanner's length limit are not modelled.
- `shouldForward`, the forwarders and their semaphores, `EnsureChain`, NAT and forwarding setup: they hand packets and rules to the netstack or the kernel, whose effect is outside the model; the decision they ask for is `Policy.RoutingNet.AclAllows`.
- Login is one atomic step; two logins that overlap in time with the same ephemeral key are not modelled.
- OsRoutes.Router.ApplyOSRoutes: every route call succeeds, because the agent neither retries nor records a failed one, so nothing is promised about it.
- Failures to remove an exit node's routes; failures to add them are modelled.
- One resolver suffix (`blinex`) is fixed; it plays no part in the proofs.
- Aliasing between records the server has already sent and records in the store is not modelled.
- The rule handlers that create, update and delete rules: only what validation lets through matters to the policy theorems.
- Agent.EndpointsDistinct: says nothing once more than 65,536 connections were made, because the two address bytes repeat from there.
- Ipam.PoolCapacity: for blocks of 30 bits or fewer, because a /31 or /32 block has no usable address between network and broadcast.
