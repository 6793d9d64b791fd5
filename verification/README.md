# xray2wg: verified model

xray2wg is the control plane of a VPN gateway: WireGuard clients enter a tunnel, transparent-proxy
rules hand their traffic to an xray instance, and xray sends it out through one or several VLESS
nodes taken from subscriptions. This project models the state machines and translators behind that
and proves what they guarantee over all inputs, all failures of the calls they make, and all runs.

Where the program changes things step by step, so does the model: classes with fields and methods,
loops with invariants. Every such method is proved against a function of the old state, and the
properties are lemmas about those functions. Calls that can fail take their outcome as a parameter,
so each result covers every combination of failures.

| file | what it is about |
|---|---|
| `Text.dfy` | trimming, splitting, joining, decimal rendering, filtering |
| `Refresh.dfy`, `Store.dfy` | the subscription refresh as a protocol of database transactions; the repositories |
| `Naming.dfy`, `Host.dfy`, `Lifecycle.dfy` | derived names, the host, Start and Stop with their rollbacks |
| `Isolation.dfy`, `OwnShare.dfy`, `StartGuard.dfy` | an operation seen through one tunnel's share of the host, and exactly when a Start succeeds |
| `LifecycleProofs.dfy`, `LifecycleTheorems.dfy`, `IpRules.dfy`, `KernelTables.dfy` | what holds over every run |
| `RuleLists.dfy` | where in each list a Start puts its rules and a Stop takes them from |
| `Recovery.dfy`, `ReachableChains.dfy`, `Reload.dfy`, `Restart.dfy` | runs in which processes die, which chain a packet then meets, reloads and restarts |
| `TunnelService.dfy` | the same operations as methods, one host call after another |
| `Tproxy.dfy` | the mangle chain and first-match evaluation |
| `ShareLink*.dfy` | printing and parsing of vless:// links and the stream settings they lead to |
| `Body.dfy`, `BodyTrim.dfy` | subscription bodies: section 4 of RFC 4648, and lines |
| `Download.dfy` | from the downloaded bodies to the node lists of the tunnels |
| `XrayConfig.dfy` | the routing configuration and what it routes |
| `Sessions.dfy`, `Traffic.dfy`, `Login.dfy`, `ClientIp.dfy` | refresh sessions, traffic accounting, the login limiter, client addresses |

## What turned out false, and exactly when it holds

- The comment at backend/internal/vless/build.go:34-37 promises a round trip without drift. `RoundTripIff` gives the
  exact condition, `SavedFormIsRunningConfig` the condition under which the running settings still agree, and
  `SavedFormDrifts` an input for which they do not.
- A running tunnel need not have its ip rule: a refused RuleAdd is only logged. Over a run every running tunnel
  always has its rule if and only if no Start had its RuleAdd refused with no rule in place (`AlwaysRuledIff`,
  `RefusedRuleStillStarts`).
- Traffic totals never exceed the truth but can fall short after a device reset (`ExactIffEveryPollSeesAll`,
  `FastRestartUndercounts`).
- Rotate reads the clock before it takes the lock, so a client can notice a purge. Purging is invisible over a run
  if and only if no rotation races a purge: no purge removed as lapsed a session that a later rotation, with an
  older clock, would still have found in date (`PurgingIsInvisibleIff`, `StaleClockShowsPurge`); a monotone clock
  rules such races out (`MonotoneNeverRaces`).
- Reloading the nodes of a running tunnel leaves its chain, so UDP/443 may be treated for a flow that no longer runs.
  `ReloadAgreesIff`: chain and nodes agree if and only if the old and the new flow agree on dropping QUIC.
- An automatic client address need not lie in the tunnel's prefix, and may be the gateway's own
  (`HandedOutInPrefixIff`, `HandedOutIsGatewayIff`).
- Five failures a minute is the login limit only for requests that do not overlap; with k in flight it is
  exactly 4 + k (`FailuresBounded`, `BoundIsReached`).
- Route teardown empties the whole table, which for ids 153..155 is one of the kernel's
  (`KernelRoutesSurviveStop`).
- A Start that follows the death of a process and fails early leaves the old PREROUTING jump, into a chain that
  proxies to an instance that is gone; `FailedRecoveryLeavesJump` says exactly how early.

## Reading the lifecycle model

`Keep(host, Mine(id))` is the part of the host that carries the names and numbers of tunnel `id`: its rules in
PREROUTING, FORWARD, DOCKER-USER and POSTROUTING, its device, xray instance, ip rule, routes and chain.
`NotMine(id)` selects all the rest. `Installed` says that this share is complete and `Absent` that it is
empty but for, possibly, an ip rule and a chain nothing jumps into; `Leftover` is what a dead process may leave, no
device, no xray and no item twice. `Inv` holds as long as processes shut down in order, `Rec` whenever they die. Runs
are sequential, and PUTs neither rename a device nor move the address while a NAT rule of the tunnel is in place.

## Model

| member | source | states |
|---|---|---|
| RefreshProofs.FirstByLinkAt | backend/internal/infrastructure/db/subscription_repo.go:204-216 | the firstByURI table of both restore steps holds exactly the fetched non-blank links, each bound to the new id of its first occurrence |
| RefreshProofs.StageValid | backend/internal/service/subscription.go:153-188 | every state a refresh commits, including those between its separate transactions, has no junction row or active node pointing nowhere and no id at or above the autoincrement counter |
| RefreshProofs.StageSlot | backend/internal/infrastructure/db/subscription_repo.go:125-230 | after any committed stage a junction slot is occupied exactly when it was before and its node is kept, and then shows the same subscription and link |
| RefreshProofs.RefreshFiltersListing | backend/internal/infrastructure/db/subscription_repo.go:171-230 | one refresh, cut short anywhere, turns every tunnel's ordered list into the filter of that list: order kept even where subscriptions interleave |
| RefreshProofs.RefreshesFilterListing | backend/internal/service/subscription.go:153-188 | over any sequence of refreshes of any subscriptions a tunnel lists its original nodes of other subscriptions and those present in every fetched list, in the old order |
| RefreshProofs.RefreshMovesActive | backend/internal/infrastructure/db/subscription_repo.go:125-261 | the active node is remapped to a fresh id with the same link, cleared, or untouched, decided entirely by the state before the refresh |
| RefreshProofs.RefreshKeepsOtherNodes | backend/internal/infrastructure/db/subscription_repo.go:125-141 | no stage of a refresh adds, drops or edits a node of another subscription |
| RefreshProofs.RunValid | backend/internal/infrastructure/db/tunnel_repo.go:137-170 | no run of refreshes, node assignments and tunnel deletions commits a dangling reference |
| RefreshProofs.SetNodesThenList | backend/internal/infrastructure/db/tunnel_node_repo.go:21-53 | ListNodes reads back exactly what SetNodes assigned, in order, duplicates included |
| RefreshProofs.SetNodesKeepsOthers | backend/internal/infrastructure/db/tunnel_node_repo.go:21-35 | assigning nodes to one tunnel leaves every other tunnel's list |
| RefreshProofs.SetNodesOnlyRows | backend/internal/infrastructure/db/tunnel_node_repo.go:21-35 | an assignment changes junction rows only, and one that names a missing tunnel or node changes nothing |
| RefreshProofs.DeleteTunnelOnlyIt | backend/internal/infrastructure/db/tunnel_repo.go:137-170 | after deleting a tunnel it and its rows are gone, and every other tunnel, every other row and every node is as before |
| RefreshProofs.DeleteTunnelKeepsOthers | backend/internal/infrastructure/db/tunnel_repo.go:158 | deleting a tunnel leaves what every other tunnel lists |
| RefreshProofs.RefreshStoresLinks | backend/internal/infrastructure/db/subscription_repo.go:263-288 | after a refresh the subscription has exactly one node per fetched link, in order, under fresh ids |
| Store.Repo.DeleteNodes | backend/internal/infrastructure/db/subscription_repo.go:125-141 | the transaction is the specification's wipe: bindings to the subscription's nodes cleared, their junction rows and the nodes themselves gone, nothing else |
| Store.Repo.SnapshotActiveNodes | backend/internal/infrastructure/db/subscription_repo.go:143-165 | lists exactly the interfaces of the subscription with a live active node, each with the trimmed link |
| Store.Repo.SnapshotTunnelNodes | backend/internal/infrastructure/db/subscription_repo.go:171-195 | lists exactly the slots whose node is of the subscription, each slot once |
| Store.Repo.InsertNodes | backend/internal/infrastructure/db/subscription_repo.go:263-288 | one row per node under consecutive fresh ids, and those ids written back into the nodes |
| Store.Repo.FirstByUri | backend/internal/infrastructure/db/subscription_repo.go:236-248 | the loop computes the first-occurrence table of the inserted links |
| Store.Repo.RemapActiveNodes | backend/internal/infrastructure/db/subscription_repo.go:232-261 | whichever update fails, what is committed is the remapping of the interfaces done so far |
| Store.Repo.RestoreTunnelNodes | backend/internal/infrastructure/db/subscription_repo.go:200-230 | all bindings whose link came back are inserted, each into a free slot, or none is |
| Store.Repo.ReplaceNodes | backend/internal/service/subscription.go:153-181 | whichever database call fails, the tables are at one of the specification's stages; with no failure they are fully refreshed |
| Store.Repo.FetchAndUpdate | backend/internal/service/subscription.go:111-188 | outcome, tables and subscription row, fetch time included, for every download result and every failing call; tables stay free of dangling references throughout |
| Store.Verdicts | backend/internal/service/subscription.go:111-121 | with no failing database call a refresh succeeds exactly for a known subscription that is the manual one, or has a URL and got nodes; it is invalid exactly for a blank URL |
| Store.RecordedOutcome | backend/internal/service/subscription.go:128-188 | a success records count and time and clears the error; a failed download or body records its message, with an error status only for a subscription without nodes; a cut body and database failures record nothing |
| Download.ParseLines | backend/internal/service/subscription.go:143-152 | the loop keeps exactly the links of the lines that parse, in order |
| Download.DownloadsFilterListing | backend/internal/service/subscription.go:134-188 | over any downloaded bodies of any subscriptions a tunnel lists exactly those of its nodes that every download spared, in the old order: of another subscription, or offered by a parsing line of the decoded body; a body without links spares all |
| Download.OfferedLines | backend/internal/service/subscription.go:143-228 | what a body of lines offers, plain or in base64, LF or CR LF, is the links of those lines that parse |
| Store.Repo.AssignNodes | backend/internal/infrastructure/db/tunnel_node_repo.go:21-35 | replaces the tunnel's rows by positions 0.. in order, or rolls back when a reference is missing |
| Store.Repo.ListNodes | backend/internal/infrastructure/db/tunnel_node_repo.go:37-53 | every row of the tunnel, in increasing position, wherever its positions end |
| Store.Repo.DeleteIface | backend/internal/infrastructure/db/tunnel_repo.go:137-170 | removes the tunnel with its junction rows, its peers and the statistics of both, or reports not found and changes nothing |
| Naming.NamesDiffer | backend/internal/service/tunnel.go:59-65 | tunnels with distinct ids never share a device name, chain name, port, mark or route table |
| Naming.KernelTableIds | backend/internal/service/tunnel.go:59-65 | a tunnel's route table is one of the kernel's 253..255 for ids 153, 154 and 155 only |
| Naming.NamesOfTwelve | backend/internal/service/tunnel.go:59-65 | the derived names and numbers of tunnel 12, spelled out |
| Tproxy.ChainDecides | backend/internal/infrastructure/netconf/tproxy_linux.go:49-126 | for every packet, first-match evaluation of the appended rules is the intended decision table |
| Tproxy.VisionIsNotBlank | backend/internal/infrastructure/netconf/tproxy_linux.go:150-159 | the QUIC drop applies exactly to flows that contain "vision" and not "vision-udp443"; the separate blank case changes nothing |
| Tproxy.VisionVectors | backend/internal/infrastructure/netconf/tproxy_linux.go:150-159 | "xtls-rprx-vision" drops QUIC, "xtls-rprx-vision-udp443" and "xtls-rprx-origin" do not |
| Isolation.DoKeep | backend/internal/service/tunnel.go:167-406 | seen through any one tunnel's share of the host (or through everything but it), an operation on that tunnel acts on the share alone and an operation on another tunnel is invisible |
| OwnShare.StartOnShare | backend/internal/service/tunnel.go:257-347 | whatever is left of the tunnel, each item at most once: Start either installs all of it, still each item once, with the chain for the row's gateway and clamp, the given flow and the tunnel's port and mark, or only takes away, and takes the old jump exactly if it got that far |
| LifecycleProofs.StartOnAbsent | backend/internal/service/tunnel.go:257-347 | from an absent share, whatever call fails, Start ends with the tunnel completely installed or absent again |
| LifecycleProofs.DoInv | backend/internal/service/tunnel.go:167-406 | Start, Stop and metadata PUTs keep the invariant that each tunnel is running, persisted so and wholly installed, or not running and absent |
| LifecycleProofs.RunInv | backend/internal/service/tunnel.go:167-406 | the same invariant over every sequential run |
| LifecycleTheorems.RunKeepsRunningIffInstalled | backend/internal/service/tunnel.go:337-406 | after every run a tunnel is in the RunSet exactly when device, route, xray, complete reachable chain, forward and NAT rules are all there; otherwise none of them is; and running implies persisted as running |
| LifecycleTheorems.FailedStart | backend/internal/service/tunnel.go:257-347 | a failed Start leaves of its tunnel at most an unreachable chain and an ip rule, does not mark it, and changes nothing of any other tunnel |
| LifecycleTheorems.StopClears | backend/internal/service/tunnel.go:358-406 | Stop removes everything of its tunnel, residues of failed starts and of dead processes included, and nothing else |
| Recovery.LiveRec | backend/internal/service/tunnel.go:257-406 | through operations and deaths of the process in any order, a tunnel is up and wholly installed, or has no device, no xray and no item twice |
| Recovery.StartRecovers | backend/internal/infrastructure/netconf/forward_linux.go:16-58 | after the process of a running tunnel died, a Start succeeds exactly when its calls work, and then everything is installed again, each item once: the delete-first steps double nothing |
| Recovery.FailedRecoveryLeavesJump | backend/internal/infrastructure/netconf/tproxy_linux.go:45-60 | such a Start, failing, leaves the old jump if and only if it fails at or before opening iptables for the chain |
| ReachableChains.ReachableChainDecides | backend/internal/infrastructure/netconf/tproxy_linux.go:29-148 | over any run of operations and crashes, a chain PREROUTING jumps to is complete and treats every packet as the decision table says for the gateway, flow and clamp of the tunnel's last successful Start; a chain whose construction failed is never reachable |
| ReachableChains.RunningChainDecides | backend/internal/service/tunnel.go:226-230 | a running tunnel is jumped to, and its chain decides for the gateway its row still has and the flow and clamp it was last started with |
| ReachableChains.StartDecides | backend/internal/service/tunnel.go:285-310 | right after a successful Start the chain treats every packet as the decision table says for the row's gateway and clamp, the first node's flow, port 13000 + id and mark 0x1000 + id |
| ReachableChains.QuicOfStarted | backend/internal/infrastructure/netconf/tproxy_linux.go:99-105 | after a successful Start UDP to port 443, gateway DNS being another port, is dropped exactly for a Vision flow without udp443 and otherwise proxied |
| ReachableChains.NothingStarted | backend/internal/service/tunnel.go:31-38 | both results hold from a world with nothing running, with no record at all |
| ReachableChains.OnlyRunningJump | backend/internal/infrastructure/netconf/tproxy_linux.go:29-148 | while processes shut down in order, exactly the running tunnels are jumped to |
| Reload.SameTreatmentIff | backend/internal/infrastructure/netconf/tproxy_linux.go:150-159 | two flows call for the same treatment of every packet exactly when both drop QUIC or neither does |
| Reload.ReloadAgreesIff | backend/internal/service/tunnel.go:69-100 | after ReloadNodes on a running tunnel the chain treats every packet as the nodes that now run call for if and only if they and the last Start's flow agree on dropping QUIC |
| Reload.FlowOfSaved | backend/internal/service/tunnel.go:226-230 | the representative flow, taken from the first re-parsed node, is for a saved node the flow it was saved with |
| LifecycleTheorems.RunWithout | backend/internal/service/tunnel.go:167-406 | taking one tunnel out of the initial world and out of the run leaves the rest of the final world as it was |
| LifecycleTheorems.StoppedLeavesNoTrace | backend/internal/infrastructure/netconf/forward_linux.go:16-58 | after Stop every rule list, apart from ICMP rules left by older builds, is what the run without that tunnel would have made it, however starts and stops of other tunnels interleave; with no such rule about, the lists are equal |
| RuleLists.StartLists | backend/internal/infrastructure/netconf/forward_linux.go:16-51 | after a successful Start the jump is the last rule of PREROUTING, the masquerade rule the first of POSTROUTING and the ACCEPT pair the first two of DOCKER-USER or FORWARD; otherwise only older copies and one rule of an older build are gone |
| RuleLists.StartResources | backend/internal/infrastructure/netconf/routing_linux.go:16-72 | exactly which device, instance, ip rule and routes are there after a successful Start: the default route of the table is replaced, other routes stay |
| RuleLists.StopLists | backend/internal/service/tunnel.go:358-390 | exactly which rules a Stop deletes from each list, under the device name in the row or the derived one |
| RuleLists.DeletesOne | backend/internal/infrastructure/netconf/nat_linux.go:43-56 | deleting a rule takes one occurrence away |
| IpRules.UpRule | backend/internal/infrastructure/netconf/routing_linux.go:16-72 | a tunnel that comes up has its ip rule exactly when RuleAdd succeeded or an earlier rule was still there |
| IpRules.RuledUnlessRefused | backend/internal/infrastructure/netconf/routing_linux.go:16-72 | "every running tunnel has its ip rule" survives an operation if and only if it is not a Start whose needed calls all work, whose RuleAdd is refused and which finds no rule in place |
| IpRules.AlwaysRuledIff | backend/internal/infrastructure/netconf/routing_linux.go:16-72 | over a whole run every running tunnel has its ip rule at every moment if and only if the run holds no such Start |
| IpRules.RefusedRuleStillStarts | backend/internal/infrastructure/netconf/routing_linux.go:16-72 | the failing case exists: with every other call working, a refused RuleAdd still ends in a running tunnel without a rule |
| IpRules.ProxiedIsRouted | backend/internal/infrastructure/netconf/routing_linux.go:16-72 | what the chain of a running tunnel proxies goes to that tunnel's xray under a mark that its ip rule, if it has one, sends to a table with the local default route |
| Lifecycle.SetupTProxy | backend/internal/infrastructure/netconf/tproxy_linux.go:29-148 | succeeds exactly when the chain is there or can be created, every append works and so does the jump; touches no device, route, ip rule or xray instance |
| Lifecycle.SetupForward | backend/internal/infrastructure/netconf/forward_linux.go:16-51 | succeeds exactly when one of the two places for the ACCEPT pair works completely; touches nothing but rule lists |
| Lifecycle.StartWg | backend/internal/service/tunnel.go:257-347 | the stages come up exactly when every needed call works, an existing chain needing no creation and the ip rule being dispensable; then the ip rule is there exactly when RuleAdd worked or an earlier one was |
| StartGuard.StartsIff | backend/internal/service/tunnel.go:167-356 | Start succeeds exactly when the tunnel is already up, or can be read, has a usable address and its calls work; and then marks it |
| StartGuard.StartPersists | backend/internal/service/tunnel.go:257-347 | the row after a Start: running with its time and no error, or failed with the message unless that write fails too, or unchanged where the code reports nothing |
| KernelTables.OtherTablesUntouched | backend/internal/infrastructure/netconf/routing_linux.go:74-96 | no operation on a tunnel adds or removes a route of another table |
| KernelTables.StopEmptiesTable | backend/internal/infrastructure/netconf/routing_linux.go:74-96 | Stop removes every route of the tunnel's table, whoever added it |
| KernelTables.KernelRoutesSurviveStop | backend/internal/infrastructure/netconf/routing_linux.go:74-96 | the kernel's own routes survive Stop for every id but 153..155, and for those ids the routes of that table are lost |
| Restart.RestoreIff | backend/internal/service/tunnel.go:408-420 | RestoreRunning brings up exactly the listed tunnels whose own Start can succeed, whatever becomes of the others |
| Restart.RestartRestores | backend/internal/service/tunnel.go:408-432 | after ShutdownAll and a new process, RestoreRunning brings back, wholly installed, exactly the persisted tunnels whose own Start can succeed, and every tunnel that was running is persisted |
| Restart.CrashRestores | backend/internal/service/tunnel.go:408-420 | the same after a process that died without ShutdownAll |
| Restart.StopPersists | backend/internal/service/tunnel.go:392-406 | after a Stop with at least one successful write the row reads stopped without an error, with the first write also without an uptime, and every other row is as before |
| Restart.StoppedStaysDown | backend/internal/service/tunnel.go:399-432 | a tunnel stopped and not started since stays persisted as stopped, through other operations, PUTs and crashes, and neither a crash nor an orderly restart brings it back |
| Restart.Boot | backend/internal/service/tunnel.go:31-38 | a host with nothing of any tunnel satisfies the invariant the other results start from |
| RunSets.RunSet.Drain | backend/internal/service/tunnel_runtime.go:58-67 | hands out every id exactly once and leaves the set empty |
| TunnelServices.TunnelService.SetupReturnRouteOn | backend/internal/infrastructure/netconf/routing_linux.go:16-72 | the calls in order are the specified step; a refused ip rule does not stop it |
| TunnelServices.TunnelService.TeardownReturnRouteOn | backend/internal/infrastructure/netconf/routing_linux.go:74-96 | the two deletion loops remove exactly the tunnel's ip rule and every route of its table |
| TunnelServices.TunnelService.FillChain | backend/internal/infrastructure/netconf/tproxy_linux.go:59-126 | whichever append fails, the chain holds the rules before it, and success means all of them |
| TunnelServices.TunnelService.SetupTProxyOn | backend/internal/infrastructure/netconf/tproxy_linux.go:29-148 | unlink, clear, fill, and link only a complete chain |
| TunnelServices.TunnelService.TeardownTProxyOn | backend/internal/infrastructure/netconf/tproxy_linux.go:161-174 | the jump and the chain are gone |
| TunnelServices.TunnelService.SetupForwardOn | backend/internal/infrastructure/netconf/forward_linux.go:16-51 | both ACCEPT rules at the head of DOCKER-USER, else both at the head of FORWARD, else neither |
| TunnelServices.TunnelService.SetupNatOn | backend/internal/infrastructure/netconf/nat_linux.go:21-41 | exactly one masquerade rule, at the head, after older ones were deleted |
| TunnelServices.TunnelService.StopInternal | backend/internal/service/tunnel.go:358-376 | the teardown calls in order are the specified teardown, and the id leaves the RunSet |
| TunnelServices.TunnelService.BringUp | backend/internal/service/tunnel.go:257-347 | each stage's hand-written rollback is the one the specification calls for |
| TunnelServices.TunnelService.StartTunnel | backend/internal/service/tunnel.go:167-356 | host, RunSet, rows and result of one Start for every combination of failing calls |
| TunnelServices.TunnelService.StopTunnel | backend/internal/service/tunnel.go:392-406 | host, RunSet and rows of one Stop |
| TunnelServices.TunnelService.PutTunnel | backend/internal/app/tunnel_merge.go:6-13 | a metadata update keeps the stored status, error message and uptime, takes the rest from the request, and touches no other row, nor host or RunSet |
| TunnelServices.TunnelService.Shutdown | backend/internal/service/tunnel.go:422-432 | tears down every drained tunnel and leaves the persisted statuses alone |
| TunnelServices.TunnelService.Restore | backend/internal/service/tunnel.go:408-420 | starts the persisted ids one after another, going on after a failure |
| ShareLinkProofs.KeyNamesDiffer | backend/internal/vless/build.go:126-155 | the query keys written and read have pairwise distinct names |
| ShareLinkProofs.QueryGets | backend/internal/vless/build.go:120-155 | common, transport and security parts of a link never overwrite one another's keys: each key reads back what its own part wrote |
| ShareLinkProofs.ReparseT | backend/internal/vless/transport/grpc.go:24-83 | what each transport's ParseURI makes of its own ShareLink, including gRPC's fallback to the ALPN key |
| ShareLinkProofs.ReparseS | backend/internal/vless/security/tls.go:22-100 | what each security's ParseURI makes of its own ShareLink |
| ShareLinkTheorems.AlpnRoundTrip | backend/internal/vless/security/tls.go:37-50 | joining with commas and splitting again is the identity exactly on lists of non-empty trimmed comma-free entries |
| ShareLinkTheorems.NamesResolve | backend/internal/vless/transport/transport.go:94-103 | every canonical transport and security name resolves to itself |
| Text.TrimCuts | backend/internal/vless/parse.go:20 | trimming cuts white space at both ends and nothing else |
| Text.LowerLetters | backend/internal/vless/transport/transport.go:95 | capital letters fold to small ones, other ASCII characters stay as they are |
| Text.ContainsIff | backend/internal/infrastructure/netconf/tproxy_linux.go:149-159 | one text contains another exactly when it stands at some offset |
| ShareLinkFields.TransportNames | backend/internal/vless/transport/transport.go:94-103 | which transport each name and alias stands for, in any case and with any white space around it |
| ShareLinkFields.SecurityNames | backend/internal/vless/security/security.go:62-71 | which security each name stands for |
| ShareLinkFields.CanonicalNames | backend/internal/vless/transport/transport.go:71-90 | the canonical name of each transport and security |
| ShareLinkFields.AcceptsInputIff | backend/internal/vless/build.go:38-118 | exactly which structured inputs are accepted |
| ShareLinkFields.FieldsOfLink | backend/internal/vless/parse.go:19-115 | exactly which links are accepted, and every field of the node one becomes, by query key and with its default |
| ShareLinkFields.EmittedOf | backend/internal/infrastructure/xrayinfra/config.go:242-285 | every emitted transport and security field of a stored node, defaults included |
| ShareLinkFields.EmittedOfInput | backend/internal/infrastructure/xrayinfra/config.go:242-285 | for an accepted input exactly the fields of its own configs are emitted |
| ShareLinkFields.EmittedOfLink | backend/internal/vless/security/tls.go:22-67 | what is emitted for an accepted link, by query key; allowInsecure is true exactly when its key reads 1, true or yes |
| ShareLinkFields.UnknownNamesFallBack | backend/internal/infrastructure/xrayinfra/config.go:251-270 | a stored name that does not resolve counts as plain TCP, or as no security |
| ShareLinkTheorems.BuiltBy | backend/internal/vless/build.go:38-118 | an accepted input decodes to a valid transport and security spec of the resolved kinds, and the node and link carry exactly these |
| ShareLinkTheorems.ParsedBy | backend/internal/vless/parse.go:19-115 | an accepted link yields a node with exactly the fields decoded from its parts |
| ShareLinkTheorems.ParseOfBuild | backend/internal/vless/parse.go:19-115 | parsing a built link yields the built node with re-read transport, security and display name, or fails exactly when the re-read security is invalid |
| ShareLinkTheorems.RoundTripIff | backend/internal/vless/build.go:34-37 | a built node equals what a parse of its own link yields if and only if its text fields are trimmed, its ALPN entries clean, no custom headers, an explicit xhttp mode, and no empty gRPC service name beside ALPN |
| ShareLinkTheorems.NormalisationIsIdempotent | backend/internal/vless/build.go:38-118 | for every link that parses with a port in 1..65535 and non-blank user and host, rebuilding from the decoded fields succeeds and parsing the rebuilt link gives the same node up to the link |
| ShareLinkTheorems.SavedFormIsRunningConfig | backend/internal/infrastructure/xrayinfra/config.go:242-285 | for every accepted input the stream settings of the node Start runs equal those of the stored node if and only if the link can carry them (no custom headers, white space only where it makes no difference, clean ALPN, no ALPN beside an empty gRPC service name unless it reads "GunService") or no longer parses, which happens exactly for a blank REALITY key |
| ShareLinkTheorems.RunningKeepsTheRest | backend/internal/service/tunnel.go:208-224 | re-parsing a stored link changes nothing but transport, security and display name |
| ShareLinkTheorems.SavedFormDrifts | backend/internal/vless/transport/grpc.go:24-34 | the failing case exists: a gRPC node over TLS with an empty service name and one ALPN entry runs with different settings than stored |
| ShareLinkBuilder.FillQuery | backend/internal/vless/build.go:126-155 | filling url.Values step by step, maps visited in any order, gives the specified query |
| ShareLinkBuilder.CopyInto | backend/internal/vless/build.go:141-154 | the copying loop is a right-biased merge whatever the visiting order |
| ShareLinkBuilder.SplitAlpnList | backend/internal/vless/security/tls.go:37-50 | the loop computes the trimmed non-blank parts in order |
| Body.ExtractVless | backend/internal/service/subscription.go:219-228 | the loop keeps exactly the trimmed lines that start with the scheme, in order |
| Body.DecodeSubscriptionBody | backend/internal/service/subscription.go:197-212 | the links of the first of the up to three candidate texts that has any |
| BodyProofs.GroupsUndoEncode | backend/internal/service/subscription.go:200-205 | decoding undoes base64 encoding of every byte sequence, padded or not |
| BodyProofs.KnownEncodings | backend/internal/service/subscription.go:200-205 | the encoding is the standard one: known vectors, both punctuation symbols included |
| BodyProofs.SchemeVectors | backend/internal/service/subscription.go:219-228 | "vless://" and "VLESS://" open a share link, "vmess://" and "vless:/" do not |
| BodyProofs.DecodersAgree | backend/internal/service/subscription.go:200-205 | where the padded and the unpadded decoder both accept, they give the same bytes |
| BodyProofs.Base64HasNoLinks | backend/internal/service/subscription.go:199-211 | a text that either decoder accepts never yields a link when read as plain text |
| BodyProofs.Base64Body | backend/internal/service/subscription.go:197-212 | a body that is a payload in base64, padded or not, line-wrapped anywhere and surrounded by white space, yields exactly the payload's links |
| BodyTrim.TrimLinks | backend/internal/service/subscription.go:198 | trimming a text, Unicode white space and line ends included, changes none of its links |
| BodyTrim.SpaceInUtf8 | backend/internal/service/subscription.go:198 | the byte patterns trimmed are the UTF-8 encodings of exactly the Unicode white-space characters |
| BodyProofs.LinksOfLines | backend/internal/service/subscription.go:214-228 | a text of lines that end in LF or CR LF in any mixture, blank lines, comments and a final line end included, has exactly the links of those lines, in order |
| BodyProofs.PlainText | backend/internal/service/subscription.go:197-212 | whatever links a body holds when read as plain text, those are its links |
| BodyProofs.PlainBody | backend/internal/service/subscription.go:197-228 | lines of which at least one is a link, sent as plain text, are decoded to their links, in order |
| BodyProofs.EncodedBody | backend/internal/service/subscription.go:197-228 | the same lines sent as padded or unpadded base64 are decoded to their links, in order |
| BodyProofs.ListOfLinks | backend/internal/service/subscription.go:197-228 | a list of trimmed share links is decoded to itself, in order, plain or encoded |
| Sessions.Store.CreateSession | backend/internal/service/refreshtoken/store.go:85-105 | one new session under the minted id, or no change when no id can be minted |
| Sessions.Store.Rotate | backend/internal/service/refreshtoken/store.go:112-138 | succeeds exactly for a session that exists and has not passed its expiry; the old session is gone in every case, and the new one has the same user and lasts its full time to live from now; no other session changes |
| Sessions.Store.PurgeExpired | backend/internal/service/refreshtoken/store.go:67-76 | deletes exactly the sessions whose expiry lies before now |
| Sessions.WithoutLapsed | backend/internal/service/refreshtoken/store.go:70-74 | the deleting loop computes exactly the sessions not yet expired |
| Sessions.AuthService.IssuePairForUser | backend/internal/service/auth.go:89-104 | a pair with its session, or a failure that leaves no session behind |
| Sessions.AuthService.RotateRefreshToken | backend/internal/service/auth.go:136-161 | unauthorized exactly for a token that is no refresh token or names no session in date; a pair exactly if an id is minted and signing works, for the same user and seven days; a signing failure leaves neither session |
| Sessions.AuthService.RevokeRefreshToken | backend/internal/service/auth.go:164-177 | the named session is gone and nothing else |
| SessionProofs.AcceptedAtMostOnce | backend/internal/service/refreshtoken/store.go:112-138 | in every run with ids that never repeat, no id is accepted by Rotate twice |
| SessionProofs.OneLiveHeirPerLogin | backend/internal/service/refreshtoken/store.go:85-138 | at every moment each CreateSession has at most one live descendant, and it belongs to the user the session was created for |
| SessionProofs.AcceptedWithinTtl | backend/internal/service/refreshtoken/store.go:85-138 | under a monotone clock an id handed out, by a creation or a rotation, and since neither rotated nor revoked is accepted exactly until its time to live has passed, given that a new id can be minted |
| SessionProofs.PurgingIsInvisible | backend/internal/service/refreshtoken/store.go:67-76 | under a monotone clock every operation answers, as far as a client can tell, as over a store that never purges |
| SessionProofs.PurgingIsInvisibleIff | backend/internal/service/refreshtoken/store.go:67-138 | in a run whose ids never repeat, all operations answer as over a store that never purges if and only if no rotation races a purge |
| SessionProofs.MonotoneNeverRaces | backend/internal/service/refreshtoken/store.go:67-76 | a clock that never goes back admits no race |
| SessionProofs.StaleClockShowsPurge | backend/internal/service/refreshtoken/store.go:112-128 | such a race exists: Rotate reads the clock before it takes the lock, and a purge in between turns an acceptance into a refusal |
| SessionProofs.FailedRefreshIsRotateThenRevoke | backend/internal/service/auth.go:148-160 | a refresh whose signing failed is, to the store, a rotation followed by a revocation, so the run results cover it |
| Traffic.PeerRepo.UpdateTraffic | backend/internal/infrastructure/db/peer_repo.go:150-183 | both directions advance by the reading's delta (the whole reading after a regress), negatives count as zero, other peers are untouched, an unknown peer changes nothing |
| TrafficProofs.NeverFallsNeverExceeds | backend/internal/infrastructure/db/peer_repo.go:141-146 | over any interleaving of traffic, device resets and polls the total never falls and never exceeds what the device truly carried |
| TrafficProofs.ExactIffEveryPollSeesAll | backend/internal/infrastructure/db/peer_repo.go:141-170 | the total is exact as of the last poll if and only if, at each poll after a reset, nothing was carried between the previous poll and the last reset and the reading is below the recorded one (or nothing was recorded) |
| TrafficProofs.FastRestartUndercounts | backend/internal/infrastructure/db/peer_repo.go:143-146 | the failing case exists: a device that outruns its recorded counter before the next poll is undercounted |
| Login.Limiter.Check | backend/internal/app/auth_public_api.go:33-48 | prunes to the last minute and blocks exactly at five or more |
| Login.Limiter.Login | backend/internal/app/auth_public_api.go:32-70 | reply and recorded failures of one login that nobody overlaps; other addresses are untouched |
| Login.Prune | backend/internal/app/auth_public_api.go:35-40 | the loop keeps exactly the times within the last minute, in order |
| LoginProofs.FailuresBounded | backend/internal/app/auth_public_api.go:33-68 | with at most k logins in flight, any interleaving keeps the failures of the last minute plus those still in flight at most 4 + k |
| LoginProofs.BoundIsReached | backend/internal/app/auth_public_api.go:33-68 | for every k there is an interleaving that reaches 4 + k, so the bound is exact |
| LoginProofs.BlockedIffFiveFailures | backend/internal/app/auth_public_api.go:35-42 | pruning forgets nothing that matters: a login is refused exactly when the last minute saw five failures since the last success |
| LoginProofs.WindowIsAMinute | backend/internal/app/auth_public_api.go:35-40 | the failures that count are those less than sixty seconds old, in nanoseconds |
| ClientIp.PeerService.UsedOctets | backend/internal/service/peer.go:69-83 | the loop collects exactly the host octets of the tunnel's peers inside the network |
| ClientIp.PeerService.NextClientIP | backend/internal/service/peer.go:55-90 | the least octet of 2..254 no peer of the tunnel has; a conflict exactly when all 253 are taken; an error exactly for a network that is no IPv4 prefix |
| ClientIp.PeerService.Create | backend/internal/service/peer.go:92-135 | one new peer under a fresh id with the given or the least free address, or an error and no change |
| ClientIp.PeerService.Delete | backend/internal/infrastructure/db/peer_repo.go:130-139 | removes the peer only under its own tunnel |
| ClientIpProofs.AutomaticAddressesStayApart | backend/internal/service/peer.go:110-116 | over any history of automatic and manual creates and deletes, with fixed networks, live automatic addresses of one tunnel are pairwise distinct and share the first three octets of its masked wg_address |
| ClientIpProofs.HandedOutInPrefixIff | backend/internal/service/peer.go:55-87 | the address handed out lies in the tunnel's prefix if and only if that is no longer than 24 bits or the least free octet falls into the gateway's own block |
| ClientIpProofs.HandedOutIsGatewayIff | backend/internal/service/peer.go:83-87 | it is the gateway's own address if and only if the gateway has the network's first three octets, its last octet is in 2..254 and free, and every lower one from 2 on is taken |
| ClientIpProofs.NetworkOfGateway | backend/internal/service/peer.go:55-63 | the network under prefixes of 16 to 24 bits and more, in terms of the gateway's octets |
| XrayConfig.BuildInbounds | backend/internal/infrastructure/xrayinfra/config.go:59-94 | the transparent inbound that keeps the original destination, and a DNS inbound on the trimmed gateway with a fixed destination exactly when that is not empty |
| XrayConfig.BuildMultiNode | backend/internal/infrastructure/xrayinfra/config.go:132-209 | one outbound per node in order, then the direct one; balancer, rule and observatory |
| XrayConfig.BuildXrayConfig | backend/internal/infrastructure/xrayinfra/config.go:19-57 | the configuration for every node list, or the error for an empty one |
| XrayConfigProofs.RoutedExactlyToNodes | backend/internal/infrastructure/xrayinfra/config.go:96-209 | every inbound may reach exactly the VLESS outbounds, in any state of the balancer, and never the direct one |
| XrayConfigProofs.OneTagPerNode | backend/internal/app/tunnels_api.go:137-153 | with several nodes the prefix selector picks one outbound per node under pairwise distinct tags, tag i + 1 is the node the health view shows at index i, and the fallback tag is that of the first outbound |
| XrayConfigProofs.OutboundFields | backend/internal/infrastructure/xrayinfra/config.go:96-240 | tag, address, port, user and stream settings of a node outbound; flow and packet encoding trimmed and only if not blank, mux exactly without a flow |
| XrayConfigProofs.DefaultOutbound | backend/internal/infrastructure/xrayinfra/config.go:133-137 | xray's implicit default stays inside the tunnel exactly when there is more than one node |
| XrayConfigProofs.TagsDiffer | backend/internal/infrastructure/xrayinfra/config.go:141 | node tags are injective, carry the selector's prefix, and the direct tag does not |
| XrayConfigProofs.SavedOutboundRuns | backend/internal/infrastructure/xrayinfra/config.go:96-141 | the whole outbound that runs for a saved node is the one its stored fields describe exactly when its link can carry its settings |

## Left out

- HTTP handlers, cookies, metrics, the event log, the WebSocket hub, text renderers and the React front end.
- Cryptography and key material: session ids are values handed in, and decryption is one of the reads whose failure makes Start return early.
- net/url: a link is a parsed URL whose query is a map (section 3.4 of RFC 3986); percent-encoding, and hosts or users that do not survive being printed and parsed again, are not modelled.
- encoding/json: a raw message is a string with a validity check and a compaction that is idempotent on valid text; other configs are datatypes whose fields decode or do not.
- SQL, GORM, netlink and iptables internals: tables are maps, chains are sequences with delete-first-match.
- Concurrent Start and Stop of one tunnel, and writes that interleave with a refresh: the code does not serialise them, so only sequential runs are claimed. Refresh sessions and the login limiter are modelled with their lock sections interleaving freely.
- Failing teardown calls: teardowns, ClearChain and the rule deletions that precede an insert are taken to succeed.
- Junction row ids, and the start-up backfill at backend/internal/infrastructure/db/models.go:157: it inserts OR IGNORE without a unique key to ignore on, so it can put two rows into one slot.
- The database read failures inside ShutdownAll.
- Start's attempt to restore a missing active node, and the reading of nodes, peers and keys before the first host call: together they are the `ready` outcome.
- The comment at backend/internal/vless/transport/xhttp.go:35-37 allows a base64-encoded `extra`; the code accepts JSON text only, and so does the model.
- The error paths of TunnelService.ReloadNodes: it replaces a running xray instance only after the new one has started, and touches nothing else.
- PreserveTunnelUpdateBindings and the column merge of TunnelRepo.Update: a partial update keeps the active node, an easy member.
- Registry.Register: names and aliases are a table here, and the panic on duplicates cannot occur for it.
- The constant parts of the xray document (log, dns, sniffing, kcp timing), and stored configs that no longer decode.
- Overflow of 64-bit counters and ids: numbers are unbounded, and an over-long port is the one width that is modelled.
- scoreIPv4's preference among address classes, the automatic listen port and TunnelNodeRepo.RemapNodesAfterRefresh, which has no caller.
- Body.DecodeSubscriptionBody: the 10 MB limit on the download is not modelled.
